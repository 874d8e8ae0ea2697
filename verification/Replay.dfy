/** Replaying a log of operations: the loop with its set of identifiers seen. */
module Replay {
  import opened Entities
  import opened CoreSpec
  import opened EvidenceGate
  import opened LiveCore
  import opened Invariant
  import opened ReplayFold

  // ---------- dispatch on the live core ----------

  ghost predicate Applied(r: Result<()>, before: Core, after: Core, op: Op) {
    Answers(r, Faults(before, op)) && after == Step(before, op)
  }

  function Done<T>(r: Result<T>): Result<()> {
    if r.Ok? then Ok(()) else Err(r.error)
  }

  predicate OutputOp(op: Op) { op.CreateOutput? || op.FinalizeRequest? }

  predicate FactOp(op: Op) { op.RecordEvidence? || op.RecordEvent? }

  method ApplyStructure(core: ContinuityCore, op: Op) returns (r: Result<()>)
    requires core.Valid() && StructureOp(op)
    modifies core
    ensures core.Valid() && Applied(r, old(core.View()), core.View(), op)
  {
    hide WorkFaults, StateFaults, RecordFaults, WorkEffect, StateEffect, RecordEffect;
    hide WellFormed, ContinuationFaults, ResumeFaults, LifecycleFaults, ProgramStatusFaults, FreshFaults, UnderFaults;
    hide AfterCreateProgram, AfterSetProgramStatus, AfterCreateSession, AfterCreateContinuation, AfterSetLifecycle,
        AfterResume, AfterCreateRequest;
    match op
    case CreateProgram(id) => var a := core.CreateProgram(id); r := Done(a);
    case SetProgramStatus(p, s) => var a := core.SetProgramStatus(p, s); r := Done(a);
    case CreateSession(id, p) => var a := core.CreateSession(id, p); r := Done(a);
    case CreateContinuation(id, s, parents, life) =>
      var a := core.CreateContinuation(id, s, parents, life); r := Done(a);
    case SetContinuationLifecycle(k, life) => var a := core.SetContinuationLifecycle(k, life); r := Done(a);
    case ResumeAfterWait(w, child) => var a := core.ResumeAfterWait(w, child); r := Done(a);
    case CreateRequest(id, k) => var a := core.CreateRequest(id, k); r := Done(a);
  }

  method ApplyAttempt(core: ContinuityCore, op: Op) returns (r: Result<()>)
    requires core.Valid() && WorkOp(op) && !OutputOp(op)
    modifies core
    ensures core.Valid() && Applied(r, old(core.View()), core.View(), op)
  {
    hide StructureFaults, StateFaults, RecordFaults, StructureEffect, StateEffect, RecordEffect;
    hide WellFormed, StartFaults, ExecutionFaults, CreatePhaseFaults, PhaseFaults, OutputFaults, FinalizeFaults;
    hide AfterStartAttempt, AfterSetExecution, AfterCreatePhase, AfterSetPhaseStatus, AfterCreateOutput, AfterFinalize;
    match op
    case StartAttempt(id, q) => var a := core.StartAttempt(id, q); r := Done(a);
    case SetAttemptExecution(t, s) => var a := core.SetAttemptExecution(t, s); r := Done(a);
    case CompleteAttempt(t, ok) => var a := core.CompleteAttempt(t, ok); r := Done(a);
    case CreatePhase(id, t, kind, ordinal) => var a := core.CreatePhase(id, t, kind, ordinal); r := Done(a);
    case SetPhaseStatus(p, s) => var a := core.SetPhaseStatus(p, s); r := Done(a);
    case CompletePhase(p) => var a := core.CompletePhase(p); r := Done(a);
  }

  method ApplyOutput(core: ContinuityCore, op: Op) returns (r: Result<()>)
    requires core.Valid() && OutputOp(op)
    modifies core
    ensures core.Valid() && Applied(r, old(core.View()), core.View(), op)
  {
    hide StructureFaults, StateFaults, RecordFaults, StructureEffect, StateEffect, RecordEffect;
    hide Sufficient, Offered, WellFormed, OutputFaults, AfterCreateOutput, AfterFinalize;
    match op
    case CreateOutput(id, t, terminal, ev) => var a := core.CreateOutput(id, t, terminal, ev); r := Done(a);
    case FinalizeRequest(q, o, now) => var a := core.FinalizeRequest(q, o, now); r := Done(a);
  }

  predicate ReplicaOp(op: Op) { op.AddReplica? || op.SetReplicaStatus? }

  method ApplyState(core: ContinuityCore, op: Op) returns (r: Result<()>)
    requires core.Valid() && StateOp(op) && !ReplicaOp(op)
    modifies core
    ensures core.Valid() && Applied(r, old(core.View()), core.View(), op)
  {
    hide StructureFaults, WorkFaults, RecordFaults, StructureEffect, WorkEffect, RecordEffect;
    hide WellFormed, CreateStateFaults, ValidityFaults, UnderFaults, KnownFaults, OriginOf, Idle;
    hide AfterCreateState, AfterSetValidity, AfterAddReplica, AfterSetReplicaStatus;
    match op
    case CreateState(id, kind, origin, semanticType, representation, from) =>
      var a := core.CreateState(id, kind, origin, semanticType, representation, from); r := Done(a);
    case SetStateValidity(s, v) => var a := core.SetStateValidity(s, v); r := Done(a);
  }

  method ApplyReplica(core: ContinuityCore, op: Op) returns (r: Result<()>)
    requires core.Valid() && ReplicaOp(op)
    modifies core
    ensures core.Valid() && Applied(r, old(core.View()), core.View(), op)
  {
    hide StructureFaults, WorkFaults, RecordFaults, StructureEffect, WorkEffect, RecordEffect;
    hide WellFormed, CreateStateFaults, ValidityFaults, UnderFaults, KnownFaults, OriginOf, Idle;
    hide AfterCreateState, AfterSetValidity, AfterAddReplica, AfterSetReplicaStatus;
    match op
    case AddReplica(id, s, location, status) => var a := core.AddReplica(id, s, location, status); r := Done(a);
    case SetReplicaStatus(p, status) => var a := core.SetReplicaStatus(p, status); r := Done(a);
  }

  predicate ActivatingOp(op: Op) { op.ActivateInitialBinding? || op.CommitMigration? }

  method ApplyCandidate(core: ContinuityCore, op: Op) returns (r: Result<()>)
    requires core.Valid() && RecordOp(op) && !FactOp(op) && !ActivatingOp(op)
    modifies core
    ensures core.Valid() && Applied(r, old(core.View()), core.View(), op)
  {
    hide StructureFaults, WorkFaults, StateFaults, StructureEffect, WorkEffect, StateEffect;
    hide WellFormed, FreshFaults, ActivateFaults, BeginFaults, CommitFaults, EvidenceFaults, EventFaults, Idle;
    hide AfterPropose, AfterActivate, AfterBegin, AfterCommit, AfterRecordEvidence, AfterRecordEvent, NewBinding;
    match op
    case ProposeBinding(id, subject, location) => var a := core.ProposeBinding(id, subject, location); r := Done(a);
    case BeginMigration(b) => var a := core.BeginMigration(b); r := Done(a);
  }

  method ApplyActivation(core: ContinuityCore, op: Op) returns (r: Result<()>)
    requires core.Valid() && ActivatingOp(op)
    modifies core
    ensures core.Valid() && Applied(r, old(core.View()), core.View(), op)
  {
    hide StructureFaults, WorkFaults, StateFaults, StructureEffect, WorkEffect, StateEffect;
    hide WellFormed, FreshFaults, ActivateFaults, BeginFaults, CommitFaults, EvidenceFaults, EventFaults, Idle;
    hide AfterPropose, AfterActivate, AfterBegin, AfterCommit, AfterRecordEvidence, AfterRecordEvent, NewBinding;
    match op
    case ActivateInitialBinding(id, subject, location) =>
      var a := core.ActivateInitialBinding(id, subject, location); r := Done(a);
    case CommitMigration(b, ev, now) => var a := core.CommitMigration(b, ev, now); r := Done(a);
  }

  method ApplyFact(core: ContinuityCore, op: Op) returns (r: Result<()>)
    requires core.Valid() && FactOp(op)
    modifies core
    ensures core.Valid() && Applied(r, old(core.View()), core.View(), op)
  {
    hide StructureFaults, WorkFaults, StateFaults, StructureEffect, WorkEffect, StateEffect;
    hide WellFormed, EvidenceFaults, EventFaults, AfterRecordEvidence, AfterRecordEvent;
    match op
    case RecordEvidence(e) => var a := core.RecordEvidence(e); r := Done(a);
    case RecordEvent(e) => var a := core.RecordEvent(e); r := Done(a);
  }

  method ApplyOperation(core: ContinuityCore, op: Op) returns (r: Result<()>)
    requires core.Valid()
    modifies core
    ensures core.Valid() && Applied(r, old(core.View()), core.View(), op)
  {
    EveryOpHasAFamily(op);
    hide *;
    if StructureOp(op) {
      r := ApplyStructure(core, op);
    } else if OutputOp(op) {
      r := ApplyOutput(core, op);
    } else if WorkOp(op) {
      r := ApplyAttempt(core, op);
    } else if ReplicaOp(op) {
      r := ApplyReplica(core, op);
    } else if StateOp(op) {
      r := ApplyState(core, op);
    } else if FactOp(op) {
      r := ApplyFact(core, op);
    } else if ActivatingOp(op) {
      r := ApplyActivation(core, op);
    } else {
      r := ApplyCandidate(core, op);
    }
  }

  lemma EveryOpHasAFamily(op: Op)
    ensures StructureOp(op) || WorkOp(op) || StateOp(op) || RecordOp(op)
  {
  }

  lemma RejectedStays(c: Core, op: Op)
    ensures Faults(c, op) != {} ==> Step(c, op) == c && !Accepted(c, op)
  {
  }

  method ReplayOperations(core: ContinuityCore, operations: seq<Operation>) returns (r: Result<()>)
    requires core.Valid()
    modifies core
    ensures core.Valid() && Replayed(core.View(), r.Ok?) == ReplayFrom(old(core.View()), operations, {})
  {
    hide Step, Faults, WellFormed;
    var seen: set<Id> := {};
    ghost var start := core.View();
    for k := 0 to |operations|
      invariant core.Valid()
      invariant ReplayFrom(start, operations, {}) == ReplayFrom(core.View(), operations[k..], seen)
    {
      var rest := operations[k..];
      assert rest[0] == operations[k] && rest[1..] == operations[k + 1..];
      if operations[k].id in seen {
        return Err(ValueError);
      }
      seen := seen + {operations[k].id};
      ghost var before := core.View();
      var applied := ApplyOperation(core, operations[k].op);
      RejectedStays(before, operations[k].op);
      if applied.Err? {
        return applied;
      }
    }
    return Ok(());
  }
}
