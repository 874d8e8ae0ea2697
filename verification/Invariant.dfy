/**
 What every run of the core from empty keeps. The oracle by itself is not inductive; the
 conjuncts here are, and `Fenced` is the part a falsy current identifier can break.
 */
module Invariant {
  import opened Entities
  import opened CoreSpec
  import opened Graphs

  // ---------- identity ----------

  ghost predicate ProgramsKeyed(m: map<Id, Program>) { forall k :: k in m ==> m[k].id == k }

  ghost predicate SessionsKeyed(m: map<Id, Session>) { forall k :: k in m ==> m[k].id == k }

  ghost predicate ContinuationsKeyed(m: map<Id, Continuation>) { forall k :: k in m ==> m[k].id == k }

  ghost predicate RequestsKeyed(m: map<Id, LogicalRequest>) { forall k :: k in m ==> m[k].id == k }

  ghost predicate AttemptsKeyed(m: map<Id, Attempt>) { forall k :: k in m ==> m[k].id == k }

  ghost predicate PhasesKeyed(m: map<Id, Phase>) { forall k :: k in m ==> m[k].id == k }

  ghost predicate StatesKeyed(m: map<Id, ReusableState>) { forall k :: k in m ==> m[k].id == k }

  ghost predicate ReplicasKeyed(m: map<Id, StateReplica>) { forall k :: k in m ==> m[k].id == k }

  ghost predicate BindingsKeyed(m: map<Id, Binding>) { forall k :: k in m ==> m[k].id == k }

  ghost predicate EvidenceKeyed(m: map<Id, Evidence>) { forall k :: k in m ==> m[k].id == k }

  ghost predicate OutputsKeyed(m: map<Id, Output>) { forall k :: k in m ==> m[k].id == k }

  ghost predicate EventsKeyed(m: map<Id, SemanticEvent>) { forall k :: k in m ==> m[k].id == k }

  /** Every entity sits under its own identifier. */
  ghost predicate KeysMatch(c: Core) {
    && ProgramsKeyed(c.programs) && SessionsKeyed(c.sessions) && ContinuationsKeyed(c.continuations)
    && RequestsKeyed(c.requests) && AttemptsKeyed(c.attempts) && PhasesKeyed(c.phases)
    && StatesKeyed(c.states) && ReplicasKeyed(c.replicas) && BindingsKeyed(c.bindings)
    && EvidenceKeyed(c.evidence) && OutputsKeyed(c.outputs) && EventsKeyed(c.events)
  }

  /** Whether `id` names an entity of the i-th collection. */
  predicate InUse(c: Core, i: int, id: Id) {
    match i
    case 0 => id in c.programs
    case 1 => id in c.sessions
    case 2 => id in c.continuations
    case 3 => id in c.requests
    case 4 => id in c.attempts
    case 5 => id in c.phases
    case 6 => id in c.states
    case 7 => id in c.replicas
    case 8 => id in c.bindings
    case 9 => id in c.evidence
    case 10 => id in c.outputs
    case 11 => id in c.events
    case _ => false
  }

  /** No identifier is used in two collections. */
  ghost predicate Identity(c: Core) {
    forall i, j, id :: InUse(c, i, id) && InUse(c, j, id) ==> i == j
  }

  // ---------- references ----------

  ghost predicate SessionsResolve(programs: set<Id>, sessions: map<Id, Session>) {
    forall s :: s in sessions ==> sessions[s].programId in programs
  }

  ghost predicate ContinuationsResolve(sessions: set<Id>, continuations: map<Id, Continuation>) {
    && (forall k :: k in continuations ==> continuations[k].sessionId in sessions)
    && (forall k, p :: k in continuations && p in continuations[k].parentIds ==>
          p in continuations && continuations[p].sessionId == continuations[k].sessionId)
  }

  ghost predicate RequestsResolve(continuations: set<Id>, attempts: set<Id>, requests: map<Id, LogicalRequest>) {
    forall r :: r in requests ==>
      && requests[r].continuationId in continuations
      && (requests[r].currentAttemptId.Some? ==> requests[r].currentAttemptId.value in attempts)
      && (requests[r].committedAttemptId.Some? ==> requests[r].committedAttemptId.value in attempts)
  }

  ghost predicate AttemptsResolve(requests: set<Id>, attempts: map<Id, Attempt>) {
    forall a :: a in attempts ==> attempts[a].requestId in requests
  }

  ghost predicate PhasesResolve(attempts: set<Id>, phases: map<Id, Phase>) {
    forall p :: p in phases ==> phases[p].attemptId in attempts
  }

  ghost predicate OutputsResolve(attempts: set<Id>, outputs: map<Id, Output>) {
    forall o :: o in outputs ==> outputs[o].attemptId in attempts
  }

  ghost predicate StateResolves(x: ReusableState, continuations: set<Id>, requests: set<Id>, attempts: set<Id>,
                                phases: set<Id>, states: set<Id>) {
    && x.originContinuationId in continuations && x.derivedFrom <= states
    && (x.originRequestId.Some? ==> x.originRequestId.value in requests)
    && (x.producerAttemptId.Some? ==> x.producerAttemptId.value in attempts)
    && (x.producerPhaseId.Some? ==> x.producerPhaseId.value in phases)
  }

  ghost predicate StatesResolve(continuations: set<Id>, requests: set<Id>, attempts: set<Id>, phases: set<Id>,
                                states: map<Id, ReusableState>) {
    forall s :: s in states ==> StateResolves(states[s], continuations, requests, attempts, phases, states.Keys)
  }

  ghost predicate BindingsResolve(bindings: set<Id>, currentBinding: map<Id, Id>) {
    forall s :: s in currentBinding ==> currentBinding[s] in bindings
  }

  /** The least a core object keeps so that no operation trips over a dangling reference. */
  ghost predicate WellFormed(c: Core) {
    && KeysMatch(c)
    && SessionsResolve(c.programs.Keys, c.sessions)
    && ContinuationsResolve(c.sessions.Keys, c.continuations)
    && RequestsResolve(c.continuations.Keys, c.attempts.Keys, c.requests)
    && AttemptsResolve(c.requests.Keys, c.attempts)
    && PhasesResolve(c.attempts.Keys, c.phases)
    && OutputsResolve(c.attempts.Keys, c.outputs)
    && StatesResolve(c.continuations.Keys, c.requests.Keys, c.attempts.Keys, c.phases.Keys, c.states)
    && BindingsResolve(c.bindings.Keys, c.currentBinding)
  }

  lemma WellFormedGraphsClosed(c: Core)
    requires WellFormed(c)
    ensures Closed(Parents(c.continuations)) && Closed(Provenance(c.states))
  {
    forall s | s in c.states ensures Provenance(c.states)[s] <= c.states.Keys {
      assert StateResolves(c.states[s], c.continuations.Keys, c.requests.Keys, c.attempts.Keys, c.phases.Keys,
             c.states.Keys);
    }
  }

  /** A resolved origin names existing entities. */
  lemma OriginResolves(c: Core, originType: OriginType, originId: Id)
    requires WellFormed(c)
    ensures var o := ResolveOrigin(c.continuations, c.requests, c.attempts, c.phases, originType, originId);
            o.Ok? ==>
              && o.value.continuationId in c.continuations
              && (o.value.requestId.Some? ==> o.value.requestId.value in c.requests)
              && (o.value.attemptId.Some? ==> o.value.attemptId.value in c.attempts)
              && (o.value.phaseId.Some? ==> o.value.phaseId.value in c.phases)
  {
  }

  lemma CreateStateKeepsStatesResolved(c: Core, op: Op)
    requires WellFormed(c) && op.CreateState? && CreateStateFaults(c, op) == {}
    ensures StatesResolve(c.continuations.Keys, c.requests.Keys, c.attempts.Keys, c.phases.Keys,
            AfterCreateState(c, op).states)
  {
    hide ResolveOrigin, Ancestor, PhaseTooLate, HasCycle, AnyDependencyFaults, Taken, StateResolves, DerivedLifecycle;
    NewStateResolves(c, op);
    var states := AfterCreateState(c, op).states;
    assert states.Keys == c.states.Keys + {op.id};
    forall s | s in states
      ensures StateResolves(states[s], c.continuations.Keys, c.requests.Keys, c.attempts.Keys, c.phases.Keys,
              states.Keys)
    {
      var x := if s == op.id then NewState(OriginOf(c, op).value, op) else c.states[s];
      MoreStatesResolve(x, states[s].lifecycle, c, op.id);
    }
  }

  lemma MoreStatesResolve(x: ReusableState, l: StateLifecycle, c: Core, id: Id)
    requires StateResolves(x, c.continuations.Keys, c.requests.Keys, c.attempts.Keys, c.phases.Keys, c.states.Keys)
    ensures StateResolves(x.(lifecycle := l), c.continuations.Keys, c.requests.Keys, c.attempts.Keys, c.phases.Keys,
                          c.states.Keys + {id})
  {
  }

  lemma NewStateResolves(c: Core, op: Op)
    requires WellFormed(c) && op.CreateState? && CreateStateFaults(c, op) == {}
    ensures StateResolves(NewState(OriginOf(c, op).value, op), c.continuations.Keys, c.requests.Keys, c.attempts.Keys,
                          c.phases.Keys, c.states.Keys)
  {
    OriginResolves(c, op.originType, op.originId);
    hide WellFormed, ResolveOrigin, HasCycle, AnyDependencyFaults;
    AcceptedDependencies(c, op, OriginOf(c, op).value);
  }

  /** An accepted State creation has only faultless dependencies. */
  lemma AcceptedDependencies(c: Core, op: Op, o: Origin)
    requires op.CreateState? && CreateStateFaults(c, op) == {} && OriginOf(c, op) == Ok(o)
    ensures forall d :: d in op.derivedFrom ==> DependencyFaults(c, o, d) == {}
  {
    var bad := set d, e | d in op.derivedFrom && e in DependencyFaults(c, o, d) :: e;
    assert bad == {};
    forall d, e | d in op.derivedFrom && e in DependencyFaults(c, o, d) ensures e in bad {
    }
  }

  /** An accepted continuation has existing parents in its own session. */
  lemma AcceptedParents(c: Core, id: Id, session: Id, parents: set<Id>, life: ContinuationLifecycle)
    requires ContinuationFaults(c, id, session, parents, life) == {}
    ensures forall p :: p in parents ==> p in c.continuations && c.continuations[p].sessionId == session
  {
    var bad := set p, e | p in parents && e in ParentFaults(c, session, p) :: e;
    forall p | p in parents ensures p in c.continuations && c.continuations[p].sessionId == session {
      assert KeyError !in bad && SemanticViolation !in bad;
      assert KeyError !in ParentFaults(c, session, p);
      assert SemanticViolation !in ParentFaults(c, session, p);
    }
  }

  /** Refreshing touches nothing but the cached lifecycle. */
  lemma RefreshKeepsResolved(c: Core, cs: map<Id, Continuation>)
    requires StatesResolve(c.continuations.Keys, c.requests.Keys, c.attempts.Keys, c.phases.Keys, c.states)
    requires c.continuations.Keys <= cs.Keys
    ensures StatesResolve(cs.Keys, c.requests.Keys, c.attempts.Keys, c.phases.Keys, Refreshed(cs, c.states))
  {
    var states := Refreshed(cs, c.states);
    forall s | s in states
      ensures StateResolves(states[s], cs.Keys, c.requests.Keys, c.attempts.Keys, c.phases.Keys, states.Keys)
    {
      assert StateResolves(c.states[s], c.continuations.Keys, c.requests.Keys, c.attempts.Keys, c.phases.Keys,
             c.states.Keys);
    }
  }

  lemma StatesResolveInLarger(c: Core, c': Core)
    requires StatesResolve(c.continuations.Keys, c.requests.Keys, c.attempts.Keys, c.phases.Keys, c.states)
    requires c.continuations.Keys <= c'.continuations.Keys && c.requests.Keys <= c'.requests.Keys
    requires c.attempts.Keys <= c'.attempts.Keys && c.phases.Keys <= c'.phases.Keys
    ensures StatesResolve(c'.continuations.Keys, c'.requests.Keys, c'.attempts.Keys, c'.phases.Keys, c.states)
  {
    forall s | s in c.states
      ensures StateResolves(c.states[s], c'.continuations.Keys, c'.requests.Keys, c'.attempts.Keys, c'.phases.Keys,
              c.states.Keys)
    {
      assert StateResolves(c.states[s], c.continuations.Keys, c.requests.Keys, c.attempts.Keys, c.phases.Keys,
             c.states.Keys);
    }
  }

  /** New attempts and requests, none of the old ones gone. */
  lemma WorkKeepsWellFormed(c: Core, attempts: map<Id, Attempt>, requests: map<Id, LogicalRequest>)
    requires WellFormed(c) && c.attempts.Keys <= attempts.Keys && c.requests.Keys == requests.Keys
    requires AttemptsKeyed(attempts) && RequestsKeyed(requests)
    requires AttemptsResolve(c.requests.Keys, attempts)
    requires RequestsResolve(c.continuations.Keys, attempts.Keys, requests)
    ensures WellFormed(c.(attempts := attempts, requests := requests))
  {
    hide StatesResolve, SessionsResolve, ContinuationsResolve, RequestsResolve, AttemptsResolve, BindingsResolve;
    StatesResolveInLarger(c, c.(attempts := attempts, requests := requests));
  }

  lemma SetValidityKeepsStatesResolved(c: Core, x: Id, v: StateValidity)
    requires x in c.states
    requires StatesResolve(c.continuations.Keys, c.requests.Keys, c.attempts.Keys, c.phases.Keys, c.states)
    ensures StatesResolve(c.continuations.Keys, c.requests.Keys, c.attempts.Keys, c.phases.Keys,
            AfterSetValidity(c, x, v).states)
  {
    var states := AfterSetValidity(c, x, v).states;
    assert states.Keys == c.states.Keys;
    forall s | s in states
      ensures StateResolves(states[s], c.continuations.Keys, c.requests.Keys, c.attempts.Keys, c.phases.Keys,
              states.Keys)
    {
      assert StateResolves(c.states[s], c.continuations.Keys, c.requests.Keys, c.attempts.Keys, c.phases.Keys,
             c.states.Keys);
    }
  }

  lemma CreateProgramKeepsWellFormed(c: Core, id: Id)
    requires WellFormed(c)
    ensures WellFormed(AfterCreateProgram(c, id))
  {
  }

  lemma SetProgramStatusKeepsWellFormed(c: Core, p: Id, s: ProgramStatus)
    requires WellFormed(c) && p in c.programs
    ensures WellFormed(AfterSetProgramStatus(c, p, s))
  {
  }

  lemma CreateSessionKeepsWellFormed(c: Core, id: Id, p: Id)
    requires WellFormed(c) && p in c.programs && id !in c.sessions
    ensures WellFormed(AfterCreateSession(c, id, p))
  {
  }

  lemma CreateContinuationKeepsWellFormed(c: Core, id: Id, session: Id, parents: set<Id>, life: ContinuationLifecycle)
    requires WellFormed(c) && ContinuationFaults(c, id, session, parents, life) == {}
    ensures WellFormed(AfterCreateContinuation(c, id, session, parents, life))
  {
    AcceptedParents(c, id, session, parents, life);
    RefreshKeepsResolved(c, AfterCreateContinuation(c, id, session, parents, life).continuations);
  }

  lemma SetLifecycleKeepsWellFormed(c: Core, k: Id, life: ContinuationLifecycle)
    requires WellFormed(c) && k in c.continuations
    ensures WellFormed(AfterSetLifecycle(c, k, life))
  {
    RefreshKeepsResolved(c, AfterSetLifecycle(c, k, life).continuations);
  }

  lemma ResumeKeepsWellFormed(c: Core, w: Id, child: Id)
    requires WellFormed(c) && ResumeFaults(c, w, child) == {}
    ensures WellFormed(AfterResume(c, w, child))
  {
    hide StatesResolve, PhasesResolve, OutputsResolve, AttemptsResolve, BindingsResolve, SessionsResolve, ProgramsKeyed,
        SessionsKeyed, RequestsKeyed, AttemptsKeyed, PhasesKeyed, ReplicasKeyed, BindingsKeyed, EvidenceKeyed,
        OutputsKeyed, EventsKeyed, HasCycle, ParentFaults, DerivedLifecycle;
    AcceptedParents(c, child, c.continuations[w].sessionId, {w}, LifeActive);
    RefreshKeepsResolved(c, AfterResume(c, w, child).continuations);
  }

  lemma CreateRequestKeepsWellFormed(c: Core, id: Id, k: Id)
    requires WellFormed(c) && k in c.continuations && id !in c.requests
    ensures WellFormed(AfterCreateRequest(c, id, k))
  {
    StatesResolveInLarger(c, AfterCreateRequest(c, id, k));
  }

  lemma FenceKeepsReferences(attempts: map<Id, Attempt>, current: Option<Id>, requests: set<Id>)
    requires AttemptsKeyed(attempts) && AttemptsResolve(requests, attempts)
    ensures var m := Fence(attempts, current);
            m.Keys == attempts.Keys && AttemptsKeyed(m) && AttemptsResolve(requests, m)
  {
  }

  lemma StartAttemptKeepsReferences(c: Core, id: Id, r: Id)
    requires WellFormed(c) && r in c.requests && id !in c.attempts
    ensures var c' := AfterStartAttempt(c, id, r);
            && c.attempts.Keys + {id} == c'.attempts.Keys && AttemptsKeyed(c'.attempts)
            && AttemptsResolve(c.requests.Keys, c'.attempts)
  {
    hide StatesResolve, PhasesResolve, OutputsResolve, ContinuationsResolve, StatesKeyed, PhasesKeyed,
        ContinuationsKeyed, OutputsKeyed, ProgramsKeyed, SessionsKeyed, ReplicasKeyed, BindingsKeyed, EvidenceKeyed,
        EventsKeyed, SessionsResolve, BindingsResolve, RequestsKeyed, RequestsResolve, Fence, Next, AttemptNumbers;
    FenceKeepsReferences(c.attempts, c.requests[r].currentAttemptId, c.requests.Keys);
  }

  lemma StartAttemptKeepsRequests(c: Core, id: Id, r: Id)
    requires RequestsKeyed(c.requests) && RequestsResolve(c.continuations.Keys, c.attempts.Keys, c.requests)
    requires r in c.requests && AfterStartAttempt(c, id, r).attempts.Keys == c.attempts.Keys + {id}
    ensures var c' := AfterStartAttempt(c, id, r);
            && c.requests.Keys == c'.requests.Keys && RequestsKeyed(c'.requests)
            && RequestsResolve(c.continuations.Keys, c'.attempts.Keys, c'.requests)
  {
    hide Fence, Next, AttemptNumbers;
  }

  lemma StartAttemptKeepsWellFormed(c: Core, id: Id, r: Id)
    requires WellFormed(c) && r in c.requests && id !in c.attempts
    ensures WellFormed(AfterStartAttempt(c, id, r))
  {
    StartAttemptKeepsReferences(c, id, r);
    StartAttemptKeepsRequests(c, id, r);
    hide WellFormed, AttemptsKeyed, RequestsKeyed, AttemptsResolve, RequestsResolve;
    WorkKeepsWellFormed(c, AfterStartAttempt(c, id, r).attempts, AfterStartAttempt(c, id, r).requests);
  }

  lemma SetExecutionKeepsWellFormed(c: Core, a: Id, s: ExecutionStatus)
    requires WellFormed(c) && a in c.attempts
    ensures WellFormed(AfterSetExecution(c, a, s))
  {
    StatesResolveInLarger(c, AfterSetExecution(c, a, s));
  }

  lemma CreatePhaseKeepsWellFormed(c: Core, id: Id, a: Id, kind: PhaseType)
    requires WellFormed(c) && a in c.attempts && id !in c.phases
    ensures WellFormed(AfterCreatePhase(c, id, a, kind))
  {
    hide StatesResolve, ContinuationsResolve, RequestsResolve, AttemptsResolve, OutputsResolve, SessionsResolve,
        BindingsResolve, ProgramsKeyed, SessionsKeyed, ContinuationsKeyed, RequestsKeyed, AttemptsKeyed, StatesKeyed,
        ReplicasKeyed, BindingsKeyed, EvidenceKeyed, OutputsKeyed, EventsKeyed, Next, PhaseNumbers;
    StatesResolveInLarger(c, AfterCreatePhase(c, id, a, kind));
  }

  lemma SetPhaseStatusKeepsWellFormed(c: Core, p: Id, s: PhaseStatus)
    requires WellFormed(c) && p in c.phases
    ensures WellFormed(AfterSetPhaseStatus(c, p, s))
  {
    StatesResolveInLarger(c, AfterSetPhaseStatus(c, p, s));
  }

  lemma CreateOutputKeepsWellFormed(c: Core, id: Id, a: Id, terminal: bool, ev: set<Id>)
    requires WellFormed(c) && a in c.attempts && id !in c.outputs
    ensures WellFormed(AfterCreateOutput(c, id, a, terminal, ev))
  {
  }

  lemma FinalizeKeepsReferences(c: Core, r: Id, o: Id)
    requires WellFormed(c) && r in c.requests && o in c.outputs && c.outputs[o].attemptId in c.attempts
    ensures var c' := AfterFinalize(c, r, o);
            && c.attempts.Keys <= c'.attempts.Keys && c.requests.Keys == c'.requests.Keys
            && AttemptsKeyed(c'.attempts) && RequestsKeyed(c'.requests)
            && AttemptsResolve(c.requests.Keys, c'.attempts)
            && RequestsResolve(c.continuations.Keys, c'.attempts.Keys, c'.requests)
  {
    hide StatesResolve, PhasesResolve, OutputsResolve, ContinuationsResolve, StatesKeyed, PhasesKeyed,
        ContinuationsKeyed, OutputsKeyed;
  }

  lemma FinalizeKeepsWellFormed(c: Core, r: Id, o: Id)
    requires WellFormed(c) && r in c.requests && o in c.outputs && c.outputs[o].attemptId in c.attempts
    ensures WellFormed(AfterFinalize(c, r, o))
  {
    FinalizeKeepsReferences(c, r, o);
    hide WellFormed, AttemptsKeyed, RequestsKeyed, AttemptsResolve, RequestsResolve;
    WorkKeepsWellFormed(c, AfterFinalize(c, r, o).attempts, AfterFinalize(c, r, o).requests);
  }

  lemma CreateStateKeepsWellFormed(c: Core, op: Op)
    requires WellFormed(c) && op.CreateState? && CreateStateFaults(c, op) == {}
    ensures WellFormed(AfterCreateState(c, op))
  {
    CreateStateKeepsStatesResolved(c, op);
  }

  lemma SetValidityKeepsWellFormed(c: Core, s: Id, v: StateValidity)
    requires WellFormed(c) && s in c.states
    ensures WellFormed(AfterSetValidity(c, s, v))
  {
    SetValidityKeepsStatesResolved(c, s, v);
  }

  lemma AddReplicaKeepsWellFormed(c: Core, id: Id, s: Id, location: string, status: ReplicaStatus)
    requires WellFormed(c) && id !in c.replicas
    ensures WellFormed(AfterAddReplica(c, id, s, location, status))
  {
  }

  lemma SetReplicaStatusKeepsWellFormed(c: Core, r: Id, status: ReplicaStatus)
    requires WellFormed(c) && r in c.replicas
    ensures WellFormed(AfterSetReplicaStatus(c, r, status))
  {
  }

  lemma ProposeKeepsWellFormed(c: Core, b: Binding)
    requires WellFormed(c) && b.id !in c.bindings
    ensures WellFormed(AfterPropose(c, b))
  {
  }

  lemma ActivateKeepsWellFormed(c: Core, id: Id, subject: Id, location: string)
    requires WellFormed(c) && id !in c.bindings
    ensures WellFormed(AfterActivate(c, id, subject, location))
  {
  }

  lemma BeginKeepsWellFormed(c: Core, b: Id)
    requires WellFormed(c) && b in c.bindings
    ensures WellFormed(AfterBegin(c, b))
  {
  }

  lemma RecordEvidenceKeepsWellFormed(c: Core, e: Evidence)
    requires WellFormed(c)
    ensures WellFormed(AfterRecordEvidence(c, e))
  {
  }

  lemma RecordEventKeepsWellFormed(c: Core, e: SemanticEvent)
    requires WellFormed(c)
    ensures WellFormed(AfterRecordEvent(c, e))
  {
  }

}
