/** Whole runs of the core: what every run keeps, and exactly which runs the oracle accepts. */
module CoreRuns {
  import opened Entities
  import opened EvidenceGate
  import opened CoreSpec
  import opened Graphs
  import opened Numbering
  import opened RunInvariant
  import opened WorkSteps
  import opened StateSteps
  import opened RecordSteps

  // ---------- every step keeps the invariant ----------

  lemma EmptyGraphIsAcyclic(g: Graph<Id>)
    requires g.Keys == {}
    ensures !HasCycle(g)
  {
    forall a ensures !CycleAt(g, a) {
      if CycleAt(g, a) {
        CycleHasEdge(g, a);
      }
    }
  }

  lemma EmptyNumbersStand(m: Numbered)
    requires m.Keys == {}
    ensures NumbersStand(m)
  {
    forall o ensures Contiguous(m, o) {
      assert Members(m, o) == {};
    }
  }

  lemma EmptyParents(cs: map<Id, Continuation>)
    requires cs.Keys == {}
    ensures Parents(cs).Keys == {}
  {
  }

  lemma EmptyProvenance(ss: map<Id, ReusableState>)
    requires ss.Keys == {}
    ensures Provenance(ss).Keys == {}
  {
  }

  lemma EmptyAttemptNumbers(attempts: map<Id, Attempt>)
    requires attempts.Keys == {}
    ensures AttemptNumbers(attempts).Keys == {}
  {
  }

  lemma EmptyPhaseNumbers(phases: map<Id, Phase>)
    requires phases.Keys == {}
    ensures PhaseNumbers(phases).Keys == {}
  {
  }

  lemma EmptyIsSound()
    ensures Sound(EmptyCore) && Fenced(EmptyCore)
  {
    hide Parents, Provenance, AttemptNumbers, PhaseNumbers, HasCycle, NumbersStand;
    var c := EmptyCore;
    EmptyParents(c.continuations);
    EmptyGraphIsAcyclic(Parents(c.continuations));
    EmptyProvenance(c.states);
    EmptyGraphIsAcyclic(Provenance(c.states));
    EmptyAttemptNumbers(c.attempts);
    EmptyNumbersStand(AttemptNumbers(c.attempts));
    EmptyPhaseNumbers(c.phases);
    EmptyNumbersStand(PhaseNumbers(c.phases));
  }

  lemma StructureOpsKeepSound(c: Core, op: Op)
    requires Sound(c) && StructureOp(op) && StructureFaults(c, op) == {}
    ensures Sound(StructureEffect(c, op))
  {
    hide Sound;
    match op
    case CreateProgram(id) => CreateProgramKeepsSound(c, id);
    case SetProgramStatus(p, s) => SetProgramStatusKeepsSound(c, p, s);
    case CreateSession(id, p) => CreateSessionKeepsSound(c, id, p);
    case CreateContinuation(id, session, parents, life) => CreateContinuationKeepsSound(c, id, session, parents, life);
    case SetContinuationLifecycle(k, life) => SetLifecycleKeepsSound(c, k, life);
    case ResumeAfterWait(w, child) => ResumeKeepsSound(c, w, child);
    case CreateRequest(id, k) => CreateRequestKeepsSound(c, id, k);
  }

  lemma WorkOpsKeepSound(c: Core, op: Op)
    requires Sound(c) && WorkOp(op) && WorkFaults(c, op) == {}
    ensures Sound(WorkEffect(c, op))
  {
    hide Sound, Sufficient, Offered;
    match op
    case StartAttempt(id, r) => StartAttemptKeepsSound(c, id, r);
    case SetAttemptExecution(a, s) => SetExecutionKeepsSound(c, a, s);
    case CompleteAttempt(a, ok) => SetExecutionKeepsSound(c, a, SettledExecution(ok));
    case CreatePhase(id, a, kind, ordinal) => CreatePhaseKeepsSound(c, id, a, kind, ordinal);
    case SetPhaseStatus(p, s) => SetPhaseStatusKeepsSound(c, p, s);
    case CompletePhase(p) => SetPhaseStatusKeepsSound(c, p, PhaseCompleted);
    case CreateOutput(id, a, terminal, ev) => CreateOutputKeepsSound(c, id, a, terminal, ev);
    case FinalizeRequest(r, o, now) => if !Idle(c, op) { FinalizeKeepsSound(c, r, o, now); }
  }

  lemma StateOpsKeepSound(c: Core, op: Op)
    requires Sound(c) && StateOp(op) && StateFaults(c, op) == {}
    ensures Sound(StateEffect(c, op))
  {
    hide Sound;
    match op
    case CreateState(_, _, _, _, _, _) => CreateStateKeepsSound(c, op);
    case SetStateValidity(s, v) => SetValidityKeepsSound(c, s, v);
    case AddReplica(id, s, location, status) => AddReplicaKeepsSound(c, id, s, location, status);
    case SetReplicaStatus(r, status) => SetReplicaStatusKeepsSound(c, r, status);
  }

  lemma RecordOpsKeepSound(c: Core, op: Op)
    requires Sound(c) && RecordOp(op) && RecordFaults(c, op) == {}
    ensures Sound(RecordEffect(c, op))
  {
    hide Sound, Sufficient, Offered;
    match op
    case ProposeBinding(id, subject, location) => ProposeKeepsSound(c, id, subject, location);
    case ActivateInitialBinding(id, subject, location) => ActivateKeepsSound(c, id, subject, location);
    case BeginMigration(b) => BeginKeepsSound(c, b);
    case CommitMigration(b, _, _) => CommitKeepsSound(c, b);
    case RecordEvidence(e) => if !Idle(c, op) { RecordEvidenceKeepsSound(c, e); }
    case RecordEvent(e) => if !Idle(c, op) { RecordEventKeepsSound(c, e); }
  }

  /** `Sound` is inductive: no operation, accepted or rejected, can leave it. */
  lemma StepKeepsSound(c: Core, op: Op)
    requires Sound(c)
    ensures Sound(Step(c, op))
  {
    hide Sound, StructureFaults, WorkFaults, StateFaults, RecordFaults;
    if Accepted(c, op) {
      if StructureOp(op) { StructureOpsKeepSound(c, op); }
      else if WorkOp(op) { WorkOpsKeepSound(c, op); }
      else if StateOp(op) { StateOpsKeepSound(c, op); }
      else { RecordOpsKeepSound(c, op); }
    }
  }

  lemma {:induction false} RunKeepsSound(c: Core, ops: seq<Op>)
    requires Sound(c)
    ensures Sound(Run(c, ops))
  {
    hide Sound;
    if ops != [] {
      RunKeepsSound(c, ops[..|ops| - 1]);
      StepKeepsSound(Run(c, ops[..|ops| - 1]), ops[|ops| - 1]);
    }
  }
}
