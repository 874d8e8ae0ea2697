/**
 The inductive invariant of runs from empty. The oracle alone is not inductive; `Sound` is, for
 every operation, and `Fenced` is the one part a falsy current identifier can break for good.
 */
module RunInvariant {
  import opened Entities
  import opened EvidenceGate
  import opened CoreSpec
  import opened Graphs
  import opened Numbering
  import opened Invariant

  // ---------- requests and attempts ----------

  /** Every other attempt of the same request has a smaller generation. */
  ghost predicate Newest(attempts: map<Id, Attempt>, a: Id) {
    a in attempts && forall b :: b in attempts && b != a && attempts[b].requestId == attempts[a].requestId ==>
      attempts[b].generation < attempts[a].generation
  }

  ghost predicate Holds(attempts: map<Id, Attempt>, a: Id, request: Id, authority: AttemptAuthority) {
    Newest(attempts, a) && attempts[a].requestId == request && attempts[a].authorityStatus == authority
  }

  /** READY: no attempt named. RUNNING: the newest attempt is CURRENT. COMPLETED: the newest one is COMMITTED. */
  ghost predicate RequestStands(r: LogicalRequest, attempts: map<Id, Attempt>, outputs: map<Id, Output>) {
    match r.status
    case RequestReady =>
      r.currentAttemptId.None? && r.committedAttemptId.None? && r.authoritativeOutputId.None?
    case RequestRunning =>
      && r.committedAttemptId.None? && r.authoritativeOutputId.None?
      && r.currentAttemptId.Some? && Holds(attempts, r.currentAttemptId.value, r.id, Current)
    case RequestCompleted =>
      && r.currentAttemptId.None? && r.committedAttemptId.Some? && r.authoritativeOutputId.Some?
      && Holds(attempts, r.committedAttemptId.value, r.id, Committed)
      && attempts[r.committedAttemptId.value].executionStatus == ExecSucceeded
      && r.authoritativeOutputId.value in outputs
      && outputs[r.authoritativeOutputId.value].attemptId == r.committedAttemptId.value
      && outputs[r.authoritativeOutputId.value].terminal
    case _ => false
  }

  ghost predicate RequestsStand(requests: map<Id, LogicalRequest>, attempts: map<Id, Attempt>, outputs: map<Id, Output>)
  {
    forall r :: r in requests ==> RequestStands(requests[r], attempts, outputs)
  }

  /** An attempt with authority is the one its request names, except that nothing fences the empty identifier. */
  ghost predicate AttemptStands(a: Attempt, requests: map<Id, LogicalRequest>) {
    && a.requestId in requests
    && match a.authorityStatus
       case Current => requests[a.requestId].currentAttemptId == Some(a.id) || a.id == ""
       case Committed => requests[a.requestId].committedAttemptId == Some(a.id)
       case Superseded => a.id != ""
       case NoAuthority => false
  }

  ghost predicate AttemptsStand(attempts: map<Id, Attempt>, requests: map<Id, LogicalRequest>) {
    forall a :: a in attempts ==> AttemptStands(attempts[a], requests)
  }

  /** The output passed the evidence gate for its attempt, at some time. */
  ghost predicate PassedGate(output: Output, evidence: map<Id, Evidence>) {
    && output.evidenceIds <= evidence.Keys
    && exists now :: Sufficient(Offered(evidence, output.evidenceIds), Finalize, now, {("attempt", output.attemptId)},
       None)
  }

  ghost predicate CompletedGated(requests: map<Id, LogicalRequest>, outputs: map<Id, Output>, evidence: map<Id,
      Evidence>)
  {
    forall r :: r in requests && requests[r].status == RequestCompleted && requests[r].authoritativeOutputId.Some? ==>
      requests[r].authoritativeOutputId.value in outputs &&
          PassedGate(outputs[requests[r].authoritativeOutputId.value], evidence)
  }

  ghost predicate NumbersStand(m: Numbered) {
    Distinct(m) && forall o :: Contiguous(m, o)
  }

  // ---------- States ----------

  /** The cached provenance is what the declared origin still resolves to. */
  ghost predicate OriginStands(x: ReusableState, continuations: map<Id, Continuation>, requests: map<Id,
      LogicalRequest>,
                               attempts: map<Id, Attempt>, phases: map<Id, Phase>) {
    match x.originType
    case FromContinuation =>
      && x.originId in continuations && x.originContinuationId == x.originId
      && x.originRequestId.None? && x.producerAttemptId.None? && x.producerPhaseId.None?
    case FromRequest =>
      && x.originId in requests && requests[x.originId].status == RequestCompleted
      && x.producerAttemptId.Some? && x.producerAttemptId == requests[x.originId].committedAttemptId
      && x.originRequestId == Some(x.originId) && x.originContinuationId == requests[x.originId].continuationId
      && x.producerPhaseId.None?
    case FromAttempt =>
      && x.producerAttemptId == Some(x.originId) && x.producerPhaseId.None?
      && ProducedBy(x, x.originId, requests, attempts)
    case FromPhase =>
      && x.originId in phases && phases[x.originId].status == PhaseCompleted
      && x.producerPhaseId == Some(x.originId) && x.producerAttemptId == Some(phases[x.originId].attemptId)
      && ProducedBy(x, phases[x.originId].attemptId, requests, attempts)
    case UnsupportedOrigin(_) => false
  }

  ghost predicate ProducedBy(x: ReusableState, a: Id, requests: map<Id, LogicalRequest>, attempts: map<Id, Attempt>) {
    && a in attempts && attempts[a].requestId in requests
    && x.originRequestId == Some(attempts[a].requestId)
    && x.originContinuationId == requests[attempts[a].requestId].continuationId
  }

  ghost predicate OriginsStand(continuations: map<Id, Continuation>, requests: map<Id, LogicalRequest>,
                               attempts: map<Id, Attempt>, phases: map<Id, Phase>, states: map<Id, ReusableState>) {
    forall s :: s in states ==> OriginStands(states[s], continuations, requests, attempts, phases)
  }

  /** The dependency comes from an ancestor, and from a strictly earlier phase when one attempt made both. */
  ghost predicate DependencyStands(x: ReusableState, dep: ReusableState, continuations: map<Id, Continuation>,
      phases: map<Id, Phase>)
  {
    && Ancestor(continuations, dep.originContinuationId, x.originContinuationId)
    && !PhaseTooLate(phases, x.producerPhaseId, x.producerAttemptId, dep)
  }

  ghost predicate DependenciesStand(continuations: map<Id, Continuation>, phases: map<Id, Phase>, states: map<Id,
      ReusableState>)
  {
    forall s, d :: s in states && d in states[s].derivedFrom ==>
      d in states && DependencyStands(states[s], states[d], continuations, phases)
  }

  ghost predicate Coherent(continuations: map<Id, Continuation>, states: map<Id, ReusableState>) {
    forall s :: s in states ==> states[s].lifecycle == DerivedLifecycle(continuations, states[s].originContinuationId)
  }

  ghost predicate ReplicasStand(states: set<Id>, replicas: map<Id, StateReplica>) {
    forall r :: r in replicas ==> replicas[r].stateId in states && replicas[r].bindingId.None?
  }

  // ---------- bindings ----------

  predicate Activated(b: Binding) {
    b.status == BindingActive || b.status == BindingSuperseded
  }

  ghost predicate BindingStands(b: Binding, currentBinding: map<Id, Id>, currentEpoch: map<Id, int>,
      lastAllocated: map<Id, int>)
  {
    && 0 <= b.baseEpoch < b.epoch
    && b.baseEpoch <= EpochOf(currentEpoch, b.subjectId, 0)
    && b.subjectId in lastAllocated && b.epoch <= lastAllocated[b.subjectId]
    && b.status in {Proposed, Migrating, BindingActive, BindingSuperseded}
    && (Activated(b) ==> b.subjectId in currentEpoch && b.epoch <= currentEpoch[b.subjectId])
    && (b.status == BindingActive ==>
          b.subjectId in currentBinding && (currentBinding[b.subjectId] == b.id || b.id == ""))
  }

  ghost predicate CurrentStands(bindings: map<Id, Binding>, currentBinding: map<Id, Id>, currentEpoch: map<Id, int>) {
    && currentBinding.Keys == currentEpoch.Keys
    && forall s :: s in currentBinding ==>
         && currentBinding[s] in bindings && bindings[currentBinding[s]].subjectId == s
         && bindings[currentBinding[s]].status == BindingActive
         && bindings[currentBinding[s]].epoch == currentEpoch[s]
  }

  ghost predicate BindingsStand(bindings: map<Id, Binding>, currentBinding: map<Id, Id>, currentEpoch: map<Id, int>,
      lastAllocated: map<Id, int>)
  {
    forall b :: b in bindings ==> BindingStands(bindings[b], currentBinding, currentEpoch, lastAllocated)
  }

  /** Epochs are unique per subject, and at most one binding per base epoch was ever activated. */
  ghost predicate EpochsUnique(bindings: map<Id, Binding>) {
    forall a, b :: a in bindings && b in bindings && a != b && bindings[a].subjectId == bindings[b].subjectId ==>
      && bindings[a].epoch != bindings[b].epoch
      && (Activated(bindings[a]) && Activated(bindings[b]) ==> bindings[a].baseEpoch != bindings[b].baseEpoch)
  }

  ghost predicate AllocatedStands(bindings: map<Id, Binding>, lastAllocated: map<Id, int>) {
    forall s :: s in lastAllocated ==> exists b ::
        b in bindings && bindings[b].subjectId == s && bindings[b].epoch == lastAllocated[s]
  }

  // ---------- evidence and events ----------

  ghost predicate EvidenceStands(evidence: map<Id, Evidence>) {
    forall e :: e in evidence ==> Supported(evidence, evidence[e])
  }

  ghost predicate OutputsStand(outputs: map<Id, Output>, evidence: set<Id>) {
    forall o :: o in outputs ==> outputs[o].evidenceIds <= evidence
  }

  ghost predicate EventsStand(events: map<Id, SemanticEvent>, order: seq<Id>) {
    && (forall e :: e in order <==> e in events)
    && forall i, j :: 0 <= i < j < |order| ==> order[i] != order[j]
  }

  // ---------- the invariant ----------

  ghost predicate WorkSound(requests: map<Id, LogicalRequest>, attempts: map<Id, Attempt>, phases: map<Id, Phase>,
                            outputs: map<Id, Output>, evidence: map<Id, Evidence>) {
    && RequestsStand(requests, attempts, outputs)
    && AttemptsStand(attempts, requests)
    && CompletedGated(requests, outputs, evidence)
    && NumbersStand(AttemptNumbers(attempts))
    && NumbersStand(PhaseNumbers(phases))
    && OutputsStand(outputs, evidence.Keys)
  }

  ghost predicate StatesSound(continuations: map<Id, Continuation>, requests: map<Id, LogicalRequest>,
      attempts: map<Id, Attempt>,
      phases: map<Id, Phase>, states: map<Id, ReusableState>, replicas: map<Id, StateReplica>) {
    && !HasCycle(Parents(continuations))
    && !HasCycle(Provenance(states))
    && OriginsStand(continuations, requests, attempts, phases, states)
    && DependenciesStand(continuations, phases, states)
    && Coherent(continuations, states)
    && ReplicasStand(states.Keys, replicas)
  }

  ghost predicate BindingsSound(bindings: map<Id, Binding>, currentBinding: map<Id, Id>, currentEpoch: map<Id, int>,
      lastAllocated: map<Id, int>)
  {
    && CurrentStands(bindings, currentBinding, currentEpoch)
    && BindingsStand(bindings, currentBinding, currentEpoch, lastAllocated)
    && EpochsUnique(bindings)
    && AllocatedStands(bindings, lastAllocated)
  }

  ghost predicate Sound(c: Core) {
    && WellFormed(c)
    && Identity(c)
    && WorkSound(c.requests, c.attempts, c.phases, c.outputs, c.evidence)
    && StatesSound(c.continuations, c.requests, c.attempts, c.phases, c.states, c.replicas)
    && BindingsSound(c.bindings, c.currentBinding, c.currentEpoch, c.lastAllocated)
    && EvidenceStands(c.evidence)
    && EventsStand(c.events, c.eventOrder)
  }

  /** The attempt called "" is CURRENT only where its request still names it. */
  ghost predicate AttemptFenced(attempts: map<Id, Attempt>, requests: map<Id, LogicalRequest>) {
    "" in attempts && attempts[""].authorityStatus == Current ==>
      attempts[""].requestId in requests && requests[attempts[""].requestId].currentAttemptId == Some("")
  }

  /** The binding called "" is ACTIVE only where it is still its subject's current one. */
  ghost predicate BindingFenced(bindings: map<Id, Binding>, currentBinding: map<Id, Id>) {
    "" in bindings && bindings[""].status == BindingActive ==>
      bindings[""].subjectId in currentBinding && currentBinding[bindings[""].subjectId] == ""
  }

  ghost predicate Fenced(c: Core) {
    AttemptFenced(c.attempts, c.requests) && BindingFenced(c.bindings, c.currentBinding)
  }

  /**
   The two calls that take authority from nobody: an attempt started, or a migration committed,
   while the current identifier is the empty string. A caller can test this before the call.
   */
  ghost predicate SlipsFence(c: Core, op: Op) {
    || (op.StartAttempt? && op.requestId in c.requests && c.requests[op.requestId].currentAttemptId == Some(""))
    || (op.CommitMigration? && op.bindingId in c.bindings && c.bindings[op.bindingId].subjectId in c.currentBinding
        && c.currentBinding[c.bindings[op.bindingId].subjectId] == "")
  }
}
