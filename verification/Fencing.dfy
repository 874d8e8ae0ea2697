/** What no later call can undo: authority lost, requests completed, epochs passed, States invalidated. */
module Fencing {
  import opened Entities
  import opened EvidenceGate
  import opened CoreSpec
  import opened Graphs
  import opened StateCompatibility
  import opened Invariant
  import opened RunInvariant
  import opened CoreRuns
  import opened OracleRuns
  import opened RecordSteps

  // ---------- the monotone relation between a core and any later one ----------

  ghost predicate AttemptsEvolve(before: map<Id, Attempt>, after: map<Id, Attempt>) {
    forall a :: a in before ==>
      && a in after && after[a].requestId == before[a].requestId && after[a].generation == before[a].generation
      && (before[a].authorityStatus == Superseded ==> after[a].authorityStatus == Superseded)
      && (before[a].authorityStatus == Committed ==> after[a].authorityStatus == Committed)
      && (TerminalExecution(before[a].executionStatus) ==> after[a].executionStatus == before[a].executionStatus)
  }

  ghost predicate RequestsEvolve(before: map<Id, LogicalRequest>, after: map<Id, LogicalRequest>) {
    forall r :: r in before ==>
      && r in after && after[r].continuationId == before[r].continuationId
      && (before[r].status == RequestCompleted ==> after[r] == before[r])
  }

  ghost predicate PhasesEvolve(before: map<Id, Phase>, after: map<Id, Phase>) {
    forall p :: p in before ==>
      && p in after && after[p].attemptId == before[p].attemptId && after[p].ordinal == before[p].ordinal
      && (TerminalPhase(before[p].status) ==> after[p].status == before[p].status)
  }

  ghost predicate ContinuationsEvolve(before: map<Id, Continuation>, after: map<Id, Continuation>) {
    forall k :: k in before ==>
      && k in after && after[k] == before[k].(lifecycle := after[k].lifecycle)
      && (TerminalLife(before[k].lifecycle) ==> after[k].lifecycle == before[k].lifecycle)
  }

  /** Provenance is immutable and an INVALID State stays INVALID. */
  ghost predicate StatesEvolve(before: map<Id, ReusableState>, after: map<Id, ReusableState>) {
    forall s :: s in before ==>
      && s in after && after[s] == before[s].(lifecycle := after[s].lifecycle, validity := after[s].validity)
      && (before[s].validity == StateInvalid ==> after[s].validity == StateInvalid)
  }

  ghost predicate BindingsEvolve(before: map<Id, Binding>, after: map<Id, Binding>) {
    forall b :: b in before ==>
      && b in after && after[b] == before[b].(status := after[b].status)
      && (before[b].status == BindingSuperseded ==> after[b].status == BindingSuperseded)
      && (Activated(before[b]) ==> Activated(after[b]))
  }

  /** Epochs never fall, and a subject whose current binding changed has a strictly larger one. */
  ghost predicate EpochsEvolve(binding: map<Id, Id>, epoch: map<Id, int>, binding': map<Id, Id>, epoch': map<Id, int>) {
    && binding.Keys == epoch.Keys && binding'.Keys == epoch'.Keys
    && forall s :: s in epoch ==> s in epoch' && epoch[s] <= epoch'[s] && (binding'[s] != binding[s] ==>
       epoch[s] < epoch'[s])
  }

  ghost predicate EvidenceEvolves(before: map<Id, Evidence>, after: map<Id, Evidence>) {
    forall e :: e in before ==> e in after && after[e] == before[e]
  }

  ghost predicate OutputsEvolve(before: map<Id, Output>, after: map<Id, Output>) {
    forall o :: o in before ==> o in after && after[o] == before[o]
  }

  ghost predicate EventsEvolve(before: map<Id, SemanticEvent>, order: seq<Id>, after: map<Id, SemanticEvent>,
      order': seq<Id>)
  {
    order <= order' && forall e :: e in before ==> e in after && after[e] == before[e]
  }

  ghost predicate Evolves(c: Core, c': Core) {
    && AttemptsEvolve(c.attempts, c'.attempts)
    && RequestsEvolve(c.requests, c'.requests)
    && PhasesEvolve(c.phases, c'.phases)
    && ContinuationsEvolve(c.continuations, c'.continuations)
    && StatesEvolve(c.states, c'.states)
    && BindingsEvolve(c.bindings, c'.bindings)
    && EpochsEvolve(c.currentBinding, c.currentEpoch, c'.currentBinding, c'.currentEpoch)
    && EvidenceEvolves(c.evidence, c'.evidence)
    && OutputsEvolve(c.outputs, c'.outputs)
    && EventsEvolve(c.events, c.eventOrder, c'.events, c'.eventOrder)
  }

  lemma EvolvesRefl(c: Core)
    requires c.currentBinding.Keys == c.currentEpoch.Keys
    ensures Evolves(c, c)
  {
  }

  lemma EvolvesTrans(c: Core, d: Core, e: Core)
    requires Evolves(c, d) && Evolves(d, e)
    ensures Evolves(c, e)
  {
    hide AttemptsEvolve, StatesEvolve, RequestsEvolve, BindingsEvolve, EpochsEvolve;
    AttemptsTrans(c.attempts, d.attempts, e.attempts);
    StatesTrans(c.states, d.states, e.states);
    RequestsTrans(c.requests, d.requests, e.requests);
    BindingsTrans(c.bindings, d.bindings, e.bindings);
    EpochsTrans(c, d, e);
  }

  lemma RequestsTrans(x: map<Id, LogicalRequest>, y: map<Id, LogicalRequest>, z: map<Id, LogicalRequest>)
    requires RequestsEvolve(x, y) && RequestsEvolve(y, z)
    ensures RequestsEvolve(x, z)
  {
  }

  lemma BindingsTrans(x: map<Id, Binding>, y: map<Id, Binding>, z: map<Id, Binding>)
    requires BindingsEvolve(x, y) && BindingsEvolve(y, z)
    ensures BindingsEvolve(x, z)
  {
  }

  lemma EpochsTrans(c: Core, d: Core, e: Core)
    requires EpochsEvolve(c.currentBinding, c.currentEpoch, d.currentBinding, d.currentEpoch)
    requires EpochsEvolve(d.currentBinding, d.currentEpoch, e.currentBinding, e.currentEpoch)
    ensures EpochsEvolve(c.currentBinding, c.currentEpoch, e.currentBinding, e.currentEpoch)
  {
  }

  lemma AttemptsTrans(x: map<Id, Attempt>, y: map<Id, Attempt>, z: map<Id, Attempt>)
    requires AttemptsEvolve(x, y) && AttemptsEvolve(y, z)
    ensures AttemptsEvolve(x, z)
  {
  }

  lemma StatesTrans(x: map<Id, ReusableState>, y: map<Id, ReusableState>, z: map<Id, ReusableState>)
    requires StatesEvolve(x, y) && StatesEvolve(y, z)
    ensures StatesEvolve(x, z)
  {
  }

  /** Only the continuations and the lifecycles stored with the States changed. */
  lemma ContinuationsChangeEvolves(c: Core, cs: map<Id, Continuation>)
    requires c.currentBinding.Keys == c.currentEpoch.Keys && ContinuationsEvolve(c.continuations, cs)
    ensures Evolves(c, WithContinuations(c, cs))
  {
    hide DerivedLifecycle, HasCycle, EpochsEvolve, AttemptsEvolve, PhasesEvolve, RequestsEvolve, ContinuationsEvolve,
        BindingsEvolve, EvidenceEvolves, OutputsEvolve, EventsEvolve;
    EvolvesRefl(c);
  }

  lemma LifecycleEvolves(c: Core, k: Id, life: ContinuationLifecycle)
    requires LifecycleFaults(c, k, life) == {}
    ensures ContinuationsEvolve(c.continuations, c.continuations[k := c.continuations[k].(lifecycle := life)])
  {
  }

  lemma NewContinuationEvolves(c: Core, id: Id, session: Id, parents: set<Id>, life: ContinuationLifecycle)
    requires ContinuationFaults(c, id, session, parents, life) == {}
    ensures ContinuationsEvolve(c.continuations, c.continuations[id := Continuation(id, session, parents, life)])
  {
    hide ParentFaults, HasCycle;
  }

  lemma ResumeEvolves(c: Core, w: Id, child: Id)
    requires ResumeFaults(c, w, child) == {}
    ensures ContinuationsEvolve(c.continuations,
              c.continuations[child := Continuation(child, c.continuations[w].sessionId, {w}, LifeActive)]
                             [w := c.continuations[w].(lifecycle := LifeTerminal)])
  {
    hide ParentFaults, HasCycle;
  }

  lemma NewRequestEvolves(c: Core, id: Id, k: Id)
    requires c.currentBinding.Keys == c.currentEpoch.Keys && id !in c.requests
    ensures Evolves(c, AfterCreateRequest(c, id, k))
  {
    hide EpochsEvolve, AttemptsEvolve, PhasesEvolve, ContinuationsEvolve, StatesEvolve, BindingsEvolve,
        EvidenceEvolves, OutputsEvolve, EventsEvolve;
    EvolvesRefl(c);
  }

  lemma StructureEvolves(c: Core, op: Op)
    requires c.currentBinding.Keys == c.currentEpoch.Keys
    requires StructureOp(op) && StructureFaults(c, op) == {}
    ensures Evolves(c, StructureEffect(c, op))
  {
    hide ContinuationFaults, ProgramStatusFaults, WithContinuations, AfterCreateRequest, EpochsEvolve,
        AttemptsEvolve, PhasesEvolve, RequestsEvolve, ContinuationsEvolve, StatesEvolve, BindingsEvolve,
        EvidenceEvolves, OutputsEvolve, EventsEvolve;
    EvolvesRefl(c);
    match op
    case CreateContinuation(id, session, parents, life) =>
      NewContinuationEvolves(c, id, session, parents, life);
      ContinuationsChangeEvolves(c, c.continuations[id := Continuation(id, session, parents, life)]);
    case SetContinuationLifecycle(k, life) =>
      LifecycleEvolves(c, k, life);
      ContinuationsChangeEvolves(c, c.continuations[k := c.continuations[k].(lifecycle := life)]);
    case ResumeAfterWait(w, child) =>
      ResumeEvolves(c, w, child);
      ContinuationsChangeEvolves(c, c.continuations
        [child := Continuation(child, c.continuations[w].sessionId, {w}, LifeActive)]
        [w := c.continuations[w].(lifecycle := LifeTerminal)]);
    case CreateRequest(id, k) => NewRequestEvolves(c, id, k);
    case _ =>
  }

  lemma StartEvolves(c: Core, id: Id, r: Id)
    requires StartFaults(c, id, r) == {}
    ensures var c' := AfterStartAttempt(c, id, r);
            AttemptsEvolve(c.attempts, c'.attempts) && RequestsEvolve(c.requests, c'.requests)
  {
  }

  lemma ExecutionEvolves(c: Core, a: Id, s: ExecutionStatus)
    requires ExecutionFaults(c, a, s) == {}
    ensures AttemptsEvolve(c.attempts, AfterSetExecution(c, a, s).attempts)
  {
  }

  lemma PhaseEvolves(c: Core, p: Id, s: PhaseStatus)
    requires PhaseFaults(c, p, s) == {}
    ensures PhasesEvolve(c.phases, AfterSetPhaseStatus(c, p, s).phases)
  {
  }

  lemma NewPhaseEvolves(c: Core, id: Id, a: Id, kind: PhaseType)
    requires id !in c.phases
    ensures PhasesEvolve(c.phases, AfterCreatePhase(c, id, a, kind).phases)
  {
  }

  lemma FinalizeEvolves(c: Core, r: Id, o: Id, now: real)
    requires FinalizeFaults(c, r, o, now) == {} && c.requests[r].status != RequestCompleted
    ensures var c' := AfterFinalize(c, r, o);
            AttemptsEvolve(c.attempts, c'.attempts) && RequestsEvolve(c.requests, c'.requests)
  {
    hide Sufficient, Offered;
  }

  lemma NewOutputEvolves(c: Core, id: Id, a: Id, terminal: bool, evidenceIds: set<Id>)
    requires OutputFaults(c, id, a, evidenceIds) == {}
    ensures OutputsEvolve(c.outputs, AfterCreateOutput(c, id, a, terminal, evidenceIds).outputs)
  {
  }

  /** Only attempts, requests, phases and outputs changed. */
  lemma WorkChangeEvolves(c: Core, c': Core)
    requires c.currentBinding.Keys == c.currentEpoch.Keys
    requires c' == c.(attempts := c'.attempts, requests := c'.requests, phases := c'.phases, outputs := c'.outputs)
    requires AttemptsEvolve(c.attempts, c'.attempts) && RequestsEvolve(c.requests, c'.requests)
    requires PhasesEvolve(c.phases, c'.phases) && OutputsEvolve(c.outputs, c'.outputs)
    ensures Evolves(c, c')
  {
    hide EpochsEvolve, AttemptsEvolve, PhasesEvolve, RequestsEvolve, ContinuationsEvolve, StatesEvolve,
        BindingsEvolve, EvidenceEvolves, OutputsEvolve, EventsEvolve;
    EvolvesRefl(c);
  }

  lemma WorkRefl(c: Core)
    ensures AttemptsEvolve(c.attempts, c.attempts) && RequestsEvolve(c.requests, c.requests)
    ensures PhasesEvolve(c.phases, c.phases) && OutputsEvolve(c.outputs, c.outputs)
  {
  }

  lemma WorkOpEvolves(c: Core, op: Op)
    requires c.currentBinding.Keys == c.currentEpoch.Keys
    requires WorkOp(op) && WorkFaults(c, op) == {}
    ensures Evolves(c, WorkEffect(c, op))
  {
    hide Evolves, Sufficient, Offered, Fence, Next,
        AttemptNumbers, PhaseNumbers, EpochsEvolve, AttemptsEvolve,
        PhasesEvolve, RequestsEvolve, ContinuationsEvolve, StatesEvolve, BindingsEvolve, EvidenceEvolves,
        OutputsEvolve, EventsEvolve;
    WorkRefl(c);
    match op
    case StartAttempt(id, r) =>
      StartEvolves(c, id, r);
      WorkChangeEvolves(c, AfterStartAttempt(c, id, r));
    case SetAttemptExecution(a, s) =>
      ExecutionEvolves(c, a, s);
      WorkChangeEvolves(c, AfterSetExecution(c, a, s));
    case CompleteAttempt(a, ok) =>
      ExecutionEvolves(c, a, SettledExecution(ok));
      WorkChangeEvolves(c, AfterSetExecution(c, a, SettledExecution(ok)));
    case CreatePhase(id, a, kind, _) =>
      NewPhaseEvolves(c, id, a, kind);
      WorkChangeEvolves(c, AfterCreatePhase(c, id, a, kind));
    case SetPhaseStatus(p, s) =>
      PhaseEvolves(c, p, s);
      WorkChangeEvolves(c, AfterSetPhaseStatus(c, p, s));
    case CompletePhase(p) =>
      PhaseEvolves(c, p, PhaseCompleted);
      WorkChangeEvolves(c, AfterSetPhaseStatus(c, p, PhaseCompleted));
    case CreateOutput(id, a, terminal, evidenceIds) =>
      NewOutputEvolves(c, id, a, terminal, evidenceIds);
      WorkChangeEvolves(c, AfterCreateOutput(c, id, a, terminal, evidenceIds));
    case FinalizeRequest(r, o, now) =>
      if Idle(c, op) {
        EvolvesRefl(c);
      } else {
        FinalizeEvolves(c, r, o, now);
        WorkChangeEvolves(c, AfterFinalize(c, r, o));
      }
  }

  lemma StateOpEvolves(c: Core, op: Op)
    requires c.currentBinding.Keys == c.currentEpoch.Keys
    requires StateOp(op) && StateFaults(c, op) == {}
    ensures Evolves(c, StateEffect(c, op))
  {
    EvolvesRefl(c);
    hide DerivedLifecycle, HasCycle, EpochsEvolve, AttemptsEvolve, PhasesEvolve, BindingsEvolve, RequestsEvolve,
        ContinuationsEvolve, ResolveOrigin,
         EvidenceEvolves, OutputsEvolve, EventsEvolve;
  }

  lemma CommitEvolves(c: Core, b: Id)
    requires CurrentStands(c.bindings, c.currentBinding, c.currentEpoch) && Committable(c, b)
    requires BindingsStand(c.bindings, c.currentBinding, c.currentEpoch, c.lastAllocated)
    ensures var c' := AfterCommit(c, b);
            && BindingsEvolve(c.bindings, c'.bindings)
            && EpochsEvolve(c.currentBinding, c.currentEpoch, c'.currentBinding, c'.currentEpoch)
  {
    assert BindingStands(c.bindings[b], c.currentBinding, c.currentEpoch, c.lastAllocated);
    hide BindingsStand, BindingStands;
    CommitMoves(c, b);
    CommitMovesEpochs(c, b);
    hide CurrentStands, AfterCommit, EpochsEvolve;
  }

  lemma CommitMovesEpochs(c: Core, b: Id)
    requires CurrentStands(c.bindings, c.currentBinding, c.currentEpoch) && Committable(c, b)
    requires c.bindings[b].baseEpoch < c.bindings[b].epoch
    ensures var c' := AfterCommit(c, b); EpochsEvolve(c.currentBinding, c.currentEpoch, c'.currentBinding,
            c'.currentEpoch)
  {
  }

  lemma ActivateEvolves(c: Core, id: Id, subject: Id, location: string)
    requires c.currentBinding.Keys == c.currentEpoch.Keys && id !in c.bindings && subject !in c.currentBinding
    ensures var c' := AfterActivate(c, id, subject, location);
            && BindingsEvolve(c.bindings, c'.bindings)
            && EpochsEvolve(c.currentBinding, c.currentEpoch, c'.currentBinding, c'.currentEpoch)
  {
  }

  /** A candidate is added, or starts migrating. */
  lemma CandidateEvolves(c: Core, b: Binding)
    requires b.id in c.bindings ==> c.bindings[b.id].status == Proposed && b == c.bindings[b.id].(status := Migrating)
    ensures BindingsEvolve(c.bindings, c.bindings[b.id := b])
  {
  }

  lemma EvidenceRecordingEvolves(c: Core, e: Evidence)
    requires e.id !in c.evidence
    ensures EvidenceEvolves(c.evidence, AfterRecordEvidence(c, e).evidence)
  {
  }

  lemma EventRecordingEvolves(c: Core, e: SemanticEvent)
    requires e.id !in c.events
    ensures EventsEvolve(c.events, c.eventOrder, AfterRecordEvent(c, e).events, AfterRecordEvent(c, e).eventOrder)
  {
  }

  /** Only the bindings and the three per-subject maps changed. */
  lemma BindingChangeEvolves(c: Core, bindings: map<Id, Binding>, currentBinding: map<Id, Id>, currentEpoch: map<Id,
      int>, lastAllocated: map<Id, int>)
    requires c.currentBinding.Keys == c.currentEpoch.Keys
    requires BindingsEvolve(c.bindings, bindings)
    requires EpochsEvolve(c.currentBinding, c.currentEpoch, currentBinding, currentEpoch)
    ensures Evolves(c, c.(bindings := bindings, currentBinding := currentBinding, currentEpoch := currentEpoch,
            lastAllocated := lastAllocated))
  {
    EvolvesRefl(c);
    hide EpochsEvolve, AttemptsEvolve, PhasesEvolve, RequestsEvolve, ContinuationsEvolve, StatesEvolve,
         BindingsEvolve, EvidenceEvolves, OutputsEvolve, EventsEvolve;
  }

  lemma CandidateOpEvolves(c: Core, op: Op)
    requires BindingsSound(c.bindings, c.currentBinding, c.currentEpoch, c.lastAllocated) && BindingsKeyed(c.bindings)
    requires (op.ProposeBinding? || op.BeginMigration?) && RecordFaults(c, op) == {}
    ensures Evolves(c, RecordEffect(c, op))
  {
    hide Evolves, EpochsEvolve, BindingsEvolve, BindingsSound, Sufficient, Offered, Supported, EpochOf,
        EvidenceFaults, EventFaults, CommitFaults, ActivateFaults, AfterCommit, AfterActivate, AfterRecordEvidence,
            AfterRecordEvent;
    CurrentKeys(c);
    var c' := RecordEffect(c, op);
    match op {
      case ProposeBinding(id, subject, location) => CandidateEvolves(c, NewBinding(c, id, subject, location, Proposed));
      case BeginMigration(b) => CandidateEvolves(c, c.bindings[b].(status := Migrating));
    }
    BindingChangeEvolves(c, c'.bindings, c'.currentBinding, c'.currentEpoch, c'.lastAllocated);
  }

  lemma CurrentKeys(c: Core)
    requires BindingsSound(c.bindings, c.currentBinding, c.currentEpoch, c.lastAllocated)
    ensures EpochsEvolve(c.currentBinding, c.currentEpoch, c.currentBinding, c.currentEpoch)
  {
  }

  lemma ActivateOpEvolves(c: Core, op: Op)
    requires BindingsSound(c.bindings, c.currentBinding, c.currentEpoch, c.lastAllocated) && BindingsKeyed(c.bindings)
    requires op.ActivateInitialBinding? && RecordFaults(c, op) == {}
    ensures Evolves(c, RecordEffect(c, op))
  {
    assert c.currentBinding.Keys == c.currentEpoch.Keys;
    hide Evolves, EpochsEvolve, BindingsEvolve, CurrentStands, BindingsStand, EpochsUnique, AllocatedStands,
        Sufficient, Offered, Supported;
    var c' := RecordEffect(c, op);
    ActivateEvolves(c, op.id, op.subjectId, op.locationId);
    BindingChangeEvolves(c, c'.bindings, c'.currentBinding, c'.currentEpoch, c'.lastAllocated);
  }

  lemma CommitOpEvolves(c: Core, op: Op)
    requires BindingsSound(c.bindings, c.currentBinding, c.currentEpoch, c.lastAllocated) && BindingsKeyed(c.bindings)
    requires op.CommitMigration? && RecordFaults(c, op) == {}
    ensures Evolves(c, RecordEffect(c, op))
  {
    assert c.currentBinding.Keys == c.currentEpoch.Keys;
    hide Evolves, EpochsEvolve, BindingsEvolve, CurrentStands, BindingsStand, EpochsUnique, AllocatedStands,
        Sufficient, Offered, Supported;
    var c' := RecordEffect(c, op);
    CommitEvolves(c, op.bindingId);
    BindingChangeEvolves(c, c'.bindings, c'.currentBinding, c'.currentEpoch, c'.lastAllocated);
  }

  lemma RecordingOpEvolves(c: Core, op: Op)
    requires c.currentBinding.Keys == c.currentEpoch.Keys && (op.RecordEvidence? || op.RecordEvent?)
    requires RecordFaults(c, op) == {}
    ensures Evolves(c, RecordEffect(c, op))
  {
    EvolvesRefl(c);
    hide Supported, EpochsEvolve, AttemptsEvolve, PhasesEvolve, RequestsEvolve, ContinuationsEvolve, StatesEvolve,
         BindingsEvolve, EvidenceEvolves, OutputsEvolve, EventsEvolve;
    if !Idle(c, op) {
      if op.RecordEvidence? { EvidenceRecordingEvolves(c, op.item); } else { EventRecordingEvolves(c, op.event); }
    }
  }

  lemma StepEvolves(c: Core, op: Op)
    requires Sound(c)
    ensures Evolves(c, Step(c, op))
  {
    hide StructureFaults, WorkFaults, StateFaults, RecordFaults, Evolves;
    assert BindingsKeyed(c.bindings) && c.currentBinding.Keys == c.currentEpoch.Keys;
    hide WellFormed, BindingsSound, WorkSound, StatesSound;
    if Accepted(c, op) {
      if StructureOp(op) { StructureEvolves(c, op); }
      else if WorkOp(op) { WorkOpEvolves(c, op); }
      else if StateOp(op) { StateOpEvolves(c, op); }
      else if op.ProposeBinding? || op.BeginMigration? { CandidateOpEvolves(c, op); }
      else if op.ActivateInitialBinding? { ActivateOpEvolves(c, op); }
      else if op.CommitMigration? { CommitOpEvolves(c, op); }
      else { RecordingOpEvolves(c, op); }
    } else {
      EvolvesRefl(c);
    }
  }

  /** Any two moments of a run are related. */
  lemma {:induction false} RunEvolves(c: Core, ops: seq<Op>)
    requires Sound(c)
    ensures Evolves(c, Run(c, ops)) && Sound(Run(c, ops))
  {
    RunKeepsSound(c, ops);
    if ops == [] {
      EvolvesRefl(c);
    } else {
      hide Sound, Evolves, Step;
      var before := ops[..|ops| - 1];
      RunEvolves(c, before);
      StepEvolves(Run(c, before), ops[|ops| - 1]);
      EvolvesTrans(c, Run(c, before), Run(c, ops));
    }
  }

  // ---------- attempt fencing ----------

  /**
   No request names a SUPERSEDED attempt, no output of it can finalize a request, none of its phases completes and
   neither it nor a phase of it makes a State.
   */
  ghost predicate Powerless(c: Core, a: Id) {
    && a in c.attempts && c.attempts[a].authorityStatus == Superseded
    && (forall r :: r in c.requests ==>
         c.requests[r].currentAttemptId != Some(a) && c.requests[r].committedAttemptId != Some(a))
    && (forall r, o, now :: o in c.outputs && c.outputs[o].attemptId == a ==> FinalizeFaults(c, r, o, now) != {})
    && (forall p :: p in c.phases && c.phases[p].attemptId == a ==> PhaseFaults(c, p, PhaseCompleted) != {})
    && forall op: Op :: op.CreateState? && MadeBy(c, op, a) ==> CreateStateFaults(c, op) != {}
  }

  /** The call declares that the attempt, or a phase of it, makes a State. */
  predicate MadeBy(c: Core, op: Op, a: Id)
    requires op.CreateState?
  {
    || (op.originType == FromAttempt && op.originId == a)
    || (op.originType == FromPhase && op.originId in c.phases && c.phases[op.originId].attemptId == a)
  }

  lemma SupersededMakesNothing(c: Core, op: Op, a: Id)
    requires a in c.attempts && c.attempts[a].authorityStatus == Superseded && op.CreateState? && MadeBy(c, op, a)
    ensures CreateStateFaults(c, op) != {}
  {
    hide HasCycle, AnyDependencyFaults;
  }

  lemma SupersededIsPowerless(c: Core, a: Id)
    requires RequestsStand(c.requests, c.attempts, c.outputs)
    requires a in c.attempts && c.attempts[a].authorityStatus == Superseded
    ensures Powerless(c, a)
  {
    hide Sufficient, Offered, Newest;
    forall r | r in c.requests
      ensures c.requests[r].currentAttemptId != Some(a) && c.requests[r].committedAttemptId != Some(a)
    {
      assert RequestStands(c.requests[r], c.attempts, c.outputs);
    }
    forall r, o, now | o in c.outputs && c.outputs[o].attemptId == a ensures FinalizeFaults(c, r, o, now) != {} {
      if r in c.requests {
        assert RequestStands(c.requests[r], c.attempts, c.outputs);
      }
    }
    forall op: Op | op.CreateState? && MadeBy(c, op, a) ensures CreateStateFaults(c, op) != {} {
      SupersededMakesNothing(c, op, a);
    }
    hide CreateStateFaults, MadeBy;
  }

  /** A SUPERSEDED attempt stays so, and stays powerless. */
  lemma SupersededForever(c: Core, ops: seq<Op>, a: Id)
    requires Sound(c) && a in c.attempts && c.attempts[a].authorityStatus == Superseded
    ensures Powerless(Run(c, ops), a)
  {
    RunEvolves(c, ops);
    hide Run, Powerless;
    SoundParts(Run(c, ops));
    hide Sound, RequestsStand;
    SupersededIsPowerless(Run(c, ops), a);
  }

  /** A completed request never changes again, nor does its committed attempt or its authoritative output. */
  lemma CompletedForever(c: Core, ops: seq<Op>, r: Id)
    requires Sound(c) && r in c.requests && c.requests[r].status == RequestCompleted
    ensures var c' := Run(c, ops);
            && r in c'.requests && c'.requests[r] == c.requests[r]
            && c.requests[r].committedAttemptId.Some? && c.requests[r].authoritativeOutputId.Some?
            && var a := c.requests[r].committedAttemptId.value; var o := c.requests[r].authoritativeOutputId.value;
            && a in c'.attempts && c'.attempts[a].authorityStatus == Committed &&
               c'.attempts[a].executionStatus == ExecSucceeded
            && o in c.outputs && o in c'.outputs && c'.outputs[o] == c.outputs[o]
  {
    RunEvolves(c, ops);
    assert RequestStands(c.requests[r], c.attempts, c.outputs);
    hide Sound, Run;
  }

  /** On a fenced core authority lies with one attempt of the highest generation; all others are SUPERSEDED. */
  lemma AuthorityIsNewestAndUnique(c: Core, a: Id, b: Id)
    requires Sound(c) && Fenced(c) && a in c.attempts && b in c.attempts && a != b
    requires c.attempts[a].requestId == c.attempts[b].requestId && c.attempts[a].authorityStatus in {Current, Committed}
    ensures c.attempts[b].authorityStatus == Superseded && c.attempts[b].generation < c.attempts[a].generation
  {
    hide WellFormed, Identity, StatesSound, BindingsSound, EvidenceStands, EventsStand, CompletedGated, NumbersStand,
        OutputsStand;
    var r := c.attempts[a].requestId;
    assert AttemptsKeyed(c.attempts) && RequestsKeyed(c.requests) by { SoundKeys(c); }
    assert AttemptStands(c.attempts[a], c.requests) && AttemptStands(c.attempts[b], c.requests);
    assert RequestStands(c.requests[r], c.attempts, c.outputs);
  }

  lemma SoundKeys(c: Core)
    requires Sound(c)
    ensures AttemptsKeyed(c.attempts) && RequestsKeyed(c.requests) && BindingsKeyed(c.bindings)
  {
  }

  // ---------- migration fencing ----------

  /** Over any stretch of a run a subject's epoch never falls, and rises strictly when its binding changes. */
  lemma EpochRisesWithBinding(c: Core, ops: seq<Op>, s: Id)
    requires Sound(c) && s in c.currentEpoch
    ensures var c' := Run(c, ops);
            && s in c.currentBinding && s in c'.currentBinding && s in c'.currentEpoch
            && c.currentEpoch[s] <= c'.currentEpoch[s]
            && (c'.currentBinding[s] != c.currentBinding[s] ==> c.currentEpoch[s] < c'.currentEpoch[s])
  {
    RunEvolves(c, ops);
    hide Sound, Run;
  }

  /** Two bindings of one subject proposed from one base epoch: at most one of them is ever ACTIVE, at
      any two moments of a run. */
  lemma OneActivationPerBase(ops: seq<Op>, i: nat, j: nat, a: Id, b: Id)
    requires i <= |ops| && j <= |ops|
    requires var c := Run(EmptyCore, ops[..i]); a in c.bindings && c.bindings[a].status == BindingActive
    requires var d := Run(EmptyCore, ops[..j]); b in d.bindings && d.bindings[b].status == BindingActive
    requires var e := Run(EmptyCore, ops);
             a in e.bindings && b in e.bindings ==>
               e.bindings[a].subjectId == e.bindings[b].subjectId && e.bindings[a].baseEpoch == e.bindings[b].baseEpoch
    ensures a == b
  {
    hide Sound, Evolves, Run;
    LaterBindings(ops, i, a);
    LaterBindings(ops, j, b);
    RunKeepsSoundFromEmpty(ops);
    UniqueBase(Run(EmptyCore, ops), a, b);
  }

  lemma RunKeepsSoundFromEmpty(ops: seq<Op>)
    ensures Sound(Run(EmptyCore, ops))
  {
    hide Sound, Run;
    EmptyIsSound();
    RunKeepsSound(EmptyCore, ops);
  }

  /** What was ACTIVE at some moment of a run counts as activated at its end. */
  lemma LaterBindings(ops: seq<Op>, i: nat, a: Id)
    requires i <= |ops|
    requires var c := Run(EmptyCore, ops[..i]); a in c.bindings && c.bindings[a].status == BindingActive
    ensures a in Run(EmptyCore, ops).bindings && Activated(Run(EmptyCore, ops).bindings[a])
  {
    hide Sound, Run;
    RunKeepsSoundFromEmpty(ops[..i]);
    assert ops == ops[..i] + ops[i..];
    RunConcat(EmptyCore, ops[..i], ops[i..]);
    RunEvolves(Run(EmptyCore, ops[..i]), ops[i..]);
  }

  lemma UniqueBase(c: Core, a: Id, b: Id)
    requires Sound(c) && a in c.bindings && b in c.bindings && Activated(c.bindings[a]) && Activated(c.bindings[b])
    requires c.bindings[a].subjectId == c.bindings[b].subjectId && c.bindings[a].baseEpoch == c.bindings[b].baseEpoch
    ensures a == b
  {
    hide WellFormed, Identity, StatesSound, WorkSound, EvidenceStands, EventsStand, CurrentStands, BindingsStand,
        AllocatedStands;
  }

  /** A candidate whose base epoch has been passed. */
  ghost predicate Stale(c: Core, b: Id) {
    && b in c.bindings && c.bindings[b].subjectId in c.currentEpoch
    && c.bindings[b].baseEpoch < c.currentEpoch[c.bindings[b].subjectId]
    && (c.bindings[b].subjectId in c.currentBinding ==> c.currentBinding[c.bindings[b].subjectId] != b)
  }

  lemma StaleStep(c: Core, op: Op, b: Id)
    requires Sound(c) && Stale(c, b)
    ensures Stale(Step(c, op), b)
  {
    var c' := Step(c, op);
    StepEvolves(c, op);
    assert BindingsEvolve(c.bindings, c'.bindings) &&
           EpochsEvolve(c.currentBinding, c.currentEpoch, c'.currentBinding, c'.currentEpoch);
    StaleNeverBecomesCurrent(c, op, b);
  }

  lemma StaleNeverBecomesCurrent(c: Core, op: Op, b: Id)
    requires Stale(c, b)
    ensures c.bindings[b].subjectId in Step(c, op).currentBinding ==>
            Step(c, op).currentBinding[c.bindings[b].subjectId] != b
  {
    if RecordOp(op) {
      RecordsKeepStale(c, op, b);
    } else {
      OnlyRecordsRebind(c, op);
    }
    hide Step;
  }

  lemma RecordsKeepStale(c: Core, op: Op, b: Id)
    requires Stale(c, b) && RecordOp(op)
    ensures c.bindings[b].subjectId in Step(c, op).currentBinding ==>
            Step(c, op).currentBinding[c.bindings[b].subjectId] != b
  {
    hide Sufficient, Offered, Supported, EvidenceFaults, EventFaults, Idle;
    StepOfRecord(c, op);
    if RecordFaults(c, op) == {} {
      hide Step, Displace;
    }
  }

  lemma StepOfRecord(c: Core, op: Op)
    requires RecordOp(op)
    ensures Step(c, op) == if RecordFaults(c, op) == {} then RecordEffect(c, op) else c
  {
    hide RecordFaults, RecordEffect, StructureFaults, WorkFaults, StateFaults, StructureEffect, WorkEffect, StateEffect;
  }

  lemma StructureLeavesCurrent(c: Core, op: Op)
    requires StructureOp(op) && StructureFaults(c, op) == {}
    ensures StructureEffect(c, op).currentBinding == c.currentBinding
  {
    hide ContinuationFaults, Refreshed;
  }

  lemma AttemptsLeaveCurrent(c: Core, id: Id, r: Id, a: Id, s: ExecutionStatus)
    ensures r in c.requests ==> AfterStartAttempt(c, id, r).currentBinding == c.currentBinding
    ensures a in c.attempts ==> AfterSetExecution(c, a, s).currentBinding == c.currentBinding
  {
    hide Fence, Next, AttemptNumbers;
  }

  lemma PhasesLeaveCurrent(c: Core, id: Id, a: Id, kind: PhaseType, p: Id, s: PhaseStatus)
    ensures AfterCreatePhase(c, id, a, kind).currentBinding == c.currentBinding
    ensures p in c.phases ==> AfterSetPhaseStatus(c, p, s).currentBinding == c.currentBinding
  {
    hide Next, PhaseNumbers;
  }

  lemma FinalizationLeavesCurrent(c: Core, r: Id, o: Id)
    requires r in c.requests && o in c.outputs && c.outputs[o].attemptId in c.attempts
    ensures AfterFinalize(c, r, o).currentBinding == c.currentBinding
  {
  }

  lemma OutputsLeaveCurrent(c: Core, id: Id, a: Id, terminal: bool, ev: set<Id>)
    ensures AfterCreateOutput(c, id, a, terminal, ev).currentBinding == c.currentBinding
  {
  }

  lemma WorkLeavesCurrent(c: Core, op: Op)
    requires WorkOp(op) && WorkFaults(c, op) == {}
    ensures WorkEffect(c, op).currentBinding == c.currentBinding
  {
    hide Sufficient, Offered, Idle, ExecutionMoves, PhaseMoves, PhaseNumbers, Next;
    hide AfterStartAttempt, AfterSetExecution, AfterCreatePhase, AfterSetPhaseStatus, AfterCreateOutput, AfterFinalize;
    match op
    case StartAttempt(id, r) => AttemptsLeaveCurrent(c, id, r, id, ExecCreated);
    case SetAttemptExecution(a, s) => AttemptsLeaveCurrent(c, a, a, a, s);
    case CompleteAttempt(a, ok) => AttemptsLeaveCurrent(c, a, a, a, SettledExecution(ok));
    case CreatePhase(id, a, kind, _) => PhasesLeaveCurrent(c, id, a, kind, id, PhaseCreated);
    case SetPhaseStatus(p, s) => PhasesLeaveCurrent(c, p, p, OtherPhase, p, s);
    case CompletePhase(p) => PhasesLeaveCurrent(c, p, p, OtherPhase, p, PhaseCompleted);
    case CreateOutput(id, a, terminal, ev) => OutputsLeaveCurrent(c, id, a, terminal, ev);
    case FinalizeRequest(r, o, _) => if !Idle(c, op) { FinalizationLeavesCurrent(c, r, o); }
  }

  lemma StateLeavesCurrent(c: Core, op: Op)
    requires StateOp(op) && StateFaults(c, op) == {}
    ensures StateEffect(c, op).currentBinding == c.currentBinding
  {
    hide CreateStateFaults, Refreshed, ResolveOrigin;
  }

  lemma OnlyRecordsRebind(c: Core, op: Op)
    requires !RecordOp(op)
    ensures Step(c, op).currentBinding == c.currentBinding
  {
    hide StructureFaults, WorkFaults, StateFaults, StructureEffect, WorkEffect, StateEffect, RecordEffect, RecordFaults;
    if Accepted(c, op) {
      if StructureOp(op) { StructureLeavesCurrent(c, op); }
      else if WorkOp(op) { WorkLeavesCurrent(c, op); }
      else { StateLeavesCurrent(c, op); }
    }
  }

  /** Once stale, a candidate stays stale and cannot be committed, whatever evidence and time are offered. */
  lemma {:induction false} StaleForever(c: Core, ops: seq<Op>, b: Id)
    requires Sound(c) && Stale(c, b)
    ensures var c' := Run(c, ops);
            && Stale(c', b)
            && forall ev, now :: CommitFaults(c', b, ev, now) == {SemanticViolation}
  {
    hide CommitFaults, Sound, Step, Stale;
    if ops != [] {
      StaleForever(c, ops[..|ops| - 1], b);
      RunKeepsSound(c, ops[..|ops| - 1]);
      StaleStep(Run(c, ops[..|ops| - 1]), ops[|ops| - 1], b);
    }
    StaleFaults(Run(c, ops), b);
  }

  lemma StaleFaults(c: Core, b: Id)
    requires Stale(c, b)
    ensures forall ev, now :: CommitFaults(c, b, ev, now) == {SemanticViolation}
  {
    hide Sufficient, Offered;
  }

  /** A SUPERSEDED binding is never current again. */
  lemma SupersededBindingForever(c: Core, ops: seq<Op>, b: Id)
    requires Sound(c) && b in c.bindings && c.bindings[b].status == BindingSuperseded
    ensures var c' := Run(c, ops);
            && b in c'.bindings && c'.bindings[b].status == BindingSuperseded
            && forall s :: s in c'.currentBinding ==> c'.currentBinding[s] != b
  {
    RunEvolves(c, ops);
    hide Run, WellFormed, Identity, StatesSound, WorkSound, EvidenceStands, EventsStand, BindingsStand,
        AllocatedStands, EpochsUnique;
  }

  // ---------- States that stay unusable ----------

  lemma ProvenanceGrows(c: Core, c': Core, s: Id, t: Id)
    requires StatesEvolve(c.states, c'.states) && Reaches(Provenance(c.states), s, t)
    ensures Reaches(Provenance(c'.states), s, t)
  {
    var steps :| Walk(Provenance(c.states), s, steps, t);
    WalkMono(Provenance(c.states), Provenance(c'.states), s, steps, t);
  }

  /**
   An INVALID State, or one whose producing attempt was SUPERSEDED, anywhere in the derivation
   closure: incompatible with every context, in every later core, under every semantic predicate.
   */
  lemma BlockedForever(c: Core, ops: seq<Op>, s: Id, t: Id, ctx: ExecutionContext, valid: SemanticValidity)
    requires Sound(c) && t in c.states && Reaches(Provenance(c.states), s, t)
    requires || c.states[t].validity == StateInvalid
             || (c.states[t].producerAttemptId.Some? && c.states[t].producerAttemptId.value in c.attempts
                 && c.attempts[c.states[t].producerAttemptId.value].authorityStatus == Superseded)
    ensures !Compatible(Run(c, ops), s, ctx, valid)
  {
    hide Sound;
    var c' := Run(c, ops);
    RunEvolves(c, ops);
    assert AttemptsEvolve(c.attempts, c'.attempts) && StatesEvolve(c.states, c'.states);
    hide Evolves, Run;
    ProvenanceGrows(c, c', s, t);
    if c.states[t].validity != StateInvalid {
      var a := c.states[t].producerAttemptId.value;
      SupersededIsNamed(c, a);
    }
    hide AttemptsEvolve, StatesEvolve;
    UnfitAncestorBlocks(c', s, t, ctx, valid);
  }

  lemma SupersededIsNamed(c: Core, a: Id)
    requires Sound(c) && a in c.attempts && c.attempts[a].authorityStatus == Superseded
    ensures a != ""
  {
    SoundKeys(c);
    hide WellFormed, Identity, StatesSound, BindingsSound, EvidenceStands, EventsStand, RequestsStand, NumbersStand,
        CompletedGated;
    assert AttemptStands(c.attempts[a], c.requests);
  }
}
