/** The fifteen checks of the independent invariant oracle, as predicates over a core. */
module Oracle {
  import opened Entities
  import opened CoreSpec
  import opened Graphs
  import opened Numbering
  import opened StateCompatibility

  /** Each key is its entity's own identifier, and no key appears in two collections. */
  ghost predicate GlobalIdentityUniqueness(c: Core) {
    && (forall k :: k in c.programs ==> c.programs[k].id == k && Only(c, k, 0))
    && (forall k :: k in c.sessions ==> c.sessions[k].id == k && Only(c, k, 1))
    && (forall k :: k in c.continuations ==> c.continuations[k].id == k && Only(c, k, 2))
    && (forall k :: k in c.requests ==> c.requests[k].id == k && Only(c, k, 3))
    && (forall k :: k in c.attempts ==> c.attempts[k].id == k && Only(c, k, 4))
    && (forall k :: k in c.phases ==> c.phases[k].id == k && Only(c, k, 5))
    && (forall k :: k in c.states ==> c.states[k].id == k && Only(c, k, 6))
    && (forall k :: k in c.replicas ==> c.replicas[k].id == k && Only(c, k, 7))
    && (forall k :: k in c.bindings ==> c.bindings[k].id == k && Only(c, k, 8))
    && (forall k :: k in c.evidence ==> c.evidence[k].id == k && Only(c, k, 9))
    && (forall k :: k in c.outputs ==> c.outputs[k].id == k && Only(c, k, 10))
    && (forall k :: k in c.events ==> c.events[k].id == k && Only(c, k, 11))
  }

  /** `k` is a key of no collection but the i-th. */
  ghost predicate Only(c: Core, k: Id, i: int) {
    && (i != 0 ==> k !in c.programs) && (i != 1 ==> k !in c.sessions) && (i != 2 ==> k !in c.continuations)
    && (i != 3 ==> k !in c.requests) && (i != 4 ==> k !in c.attempts) && (i != 5 ==> k !in c.phases)
    && (i != 6 ==> k !in c.states) && (i != 7 ==> k !in c.replicas) && (i != 8 ==> k !in c.bindings)
    && (i != 9 ==> k !in c.evidence) && (i != 10 ==> k !in c.outputs) && (i != 11 ==> k !in c.events)
  }

  ghost predicate ParentScopes(c: Core) {
    && (forall s :: s in c.sessions ==> c.sessions[s].programId in c.programs)
    && (forall k :: k in c.continuations ==> c.continuations[k].sessionId in c.sessions)
    && (forall k, p :: k in c.continuations && p in c.continuations[k].parentIds ==>
          p in c.continuations && c.continuations[p].sessionId == c.continuations[k].sessionId)
    && (forall r :: r in c.requests ==> c.requests[r].continuationId in c.continuations)
    && (forall a :: a in c.attempts ==> c.attempts[a].requestId in c.requests)
    && (forall p :: p in c.phases ==> c.phases[p].attemptId in c.attempts)
  }

  ghost function WithAuthority(attempts: map<Id, Attempt>, request: Id, authority: AttemptAuthority): set<Id> {
    set a | a in attempts && attempts[a].requestId == request && attempts[a].authorityStatus == authority
  }

  ghost function OptionSet(o: Option<Id>): set<Id> {
    if o.Some? then {o.value} else {}
  }

  /** Exactly the attempt the request names holds each authority; a SUPERSEDED one is named nowhere. */
  ghost predicate AttemptAuthorityCheck(c: Core) {
    forall r :: r in c.requests ==> RequestAuthority(c, c.requests[r], r)
  }

  ghost predicate RequestAuthority(c: Core, request: LogicalRequest, r: Id) {
    && WithAuthority(c.attempts, r, Current) == OptionSet(request.currentAttemptId)
    && WithAuthority(c.attempts, r, Committed) == OptionSet(request.committedAttemptId)
    && forall a :: a in WithAuthority(c.attempts, r, Superseded) ==>
         a !in OptionSet(request.currentAttemptId) && a !in OptionSet(request.committedAttemptId)
  }

  ghost predicate AttemptGenerations(c: Core) {
    forall r :: r in c.requests ==> Contiguous(AttemptNumbers(c.attempts), r)
  }

  ghost predicate RequestCommitConsistency(c: Core) {
    forall r :: r in c.requests ==> CommitConsistent(c, c.requests[r])
  }

  ghost predicate CommitConsistent(c: Core, request: LogicalRequest) {
    if request.status == RequestCompleted then
      && request.currentAttemptId.None? && request.committedAttemptId.Some? && request.authoritativeOutputId.Some?
      && request.committedAttemptId.value in c.attempts && request.authoritativeOutputId.value in c.outputs
      && var attempt := c.attempts[request.committedAttemptId.value];
      && var output := c.outputs[request.authoritativeOutputId.value];
      && attempt.requestId == request.id
      && attempt.authorityStatus == Committed && attempt.executionStatus == ExecSucceeded
      && output.attemptId == request.committedAttemptId.value && output.terminal
    else if request.status in {RequestFailed, RequestCancelled} then
      request.currentAttemptId.None? && request.committedAttemptId.None? && request.authoritativeOutputId.None?
    else true
  }

  ghost predicate ContinuationDags(c: Core) {
    forall s :: s in c.sessions ==> !HasCycle(SessionGraph(c.continuations, s))
  }

  ghost predicate PhaseOrdering(c: Core) {
    forall a :: a in c.attempts ==> Contiguous(PhaseNumbers(c.phases), a)
  }

  ghost predicate StateProvenance(c: Core) {
    && !HasCycle(Provenance(c.states))
    && forall s :: s in c.states ==> ProvenanceOf(c, c.states[s])
  }

  ghost predicate ProvenanceOf(c: Core, x: ReusableState) {
    && x.originContinuationId in c.continuations
    && DeclaredStateOrigin(c, x)
    && (forall d :: d in x.derivedFrom ==> d in c.states && DependencyOf(c, x, c.states[d]))
    && (Truthy(x.producerAttemptId) ==>
          && x.producerAttemptId.value in c.attempts
          && (Truthy(x.originRequestId) ==> c.attempts[x.producerAttemptId.value].requestId == x.originRequestId.value))
    && (Truthy(x.producerPhaseId) ==>
          && x.producerPhaseId.value in c.phases
          && Some(c.phases[x.producerPhaseId.value].attemptId) == x.producerAttemptId
          && c.phases[x.producerPhaseId.value].status == PhaseCompleted)
  }

  ghost predicate DependencyOf(c: Core, x: ReusableState, dep: ReusableState) {
    && Ancestor(c.continuations, dep.originContinuationId, x.originContinuationId)
    && (Truthy(x.producerPhaseId) && Truthy(dep.producerPhaseId) && dep.producerAttemptId == x.producerAttemptId ==>
          x.producerPhaseId.value in c.phases && dep.producerPhaseId.value in c.phases
          && c.phases[dep.producerPhaseId.value].ordinal < c.phases[x.producerPhaseId.value].ordinal)
  }

  ghost predicate DeclaredStateOrigin(c: Core, x: ReusableState) {
    match x.originType
    case FromContinuation =>
      && x.originId in c.continuations && x.originContinuationId == x.originId
      && x.originRequestId.None? && x.producerAttemptId.None? && x.producerPhaseId.None?
    case FromRequest =>
      && x.originId in c.requests
      && var request := c.requests[x.originId];
      && request.status == RequestCompleted && request.committedAttemptId.Some?
      && x.originRequestId == Some(x.originId) && x.originContinuationId == request.continuationId
      && x.producerAttemptId == request.committedAttemptId && x.producerPhaseId.None?
    case FromAttempt =>
      && x.originId in c.attempts && c.attempts[x.originId].requestId in c.requests
      && x.producerAttemptId == Some(x.originId) && x.originRequestId == Some(c.attempts[x.originId].requestId)
      && x.originContinuationId == c.requests[c.attempts[x.originId].requestId].continuationId
      && x.producerPhaseId.None?
    case FromPhase =>
      && x.originId in c.phases && c.phases[x.originId].attemptId in c.attempts
      && var attempt := c.attempts[c.phases[x.originId].attemptId];
      && attempt.requestId in c.requests
      && x.producerPhaseId == Some(x.originId) && x.producerAttemptId == Some(c.phases[x.originId].attemptId)
      && x.originRequestId == Some(attempt.requestId)
      && x.originContinuationId == c.requests[attempt.requestId].continuationId
    case UnsupportedOrigin(_) => false
  }

  ghost predicate ReplicaIntegrity(c: Core) {
    forall r :: r in c.replicas ==>
      && c.replicas[r].stateId in c.states
      && (c.replicas[r].bindingId.Some? ==>
            c.replicas[r].bindingId.value in c.bindings
            && c.replicas[r].bindingEpoch == Some(c.bindings[c.replicas[r].bindingId.value].epoch))
  }

  ghost predicate BindingAuthority(c: Core) {
    && (forall s :: s in c.currentBinding ==>
          && c.currentBinding[s] in c.bindings && s in c.currentEpoch
          && c.bindings[c.currentBinding[s]].subjectId == s
          && c.bindings[c.currentBinding[s]].status == BindingActive
          && c.currentEpoch[s] == c.bindings[c.currentBinding[s]].epoch)
    && (forall b :: b in c.bindings && c.bindings[b].status == BindingActive ==>
          c.bindings[b].subjectId in c.currentBinding && c.currentBinding[c.bindings[b].subjectId] == b)
  }

  ghost predicate BindingGenerations(c: Core) {
    && (forall b :: b in c.bindings ==> c.bindings[b].baseEpoch < c.bindings[b].epoch)
    && (forall a, b ::
          a in c.bindings && b in c.bindings && a != b && c.bindings[a].subjectId == c.bindings[b].subjectId ==>
            c.bindings[a].epoch != c.bindings[b].epoch)
    && (forall b :: b in c.bindings ==> SubjectEpochs(c, c.bindings[b].subjectId))
  }

  /** The last allocated epoch is the largest one in use, and the current one is in use. */
  ghost predicate SubjectEpochs(c: Core, s: Id) {
    && s in c.lastAllocated && EpochInUse(c, s, c.lastAllocated[s])
    && (forall b :: b in c.bindings && c.bindings[b].subjectId == s ==> c.bindings[b].epoch <= c.lastAllocated[s])
    && (s in c.currentEpoch ==> EpochInUse(c, s, c.currentEpoch[s]))
  }

  ghost predicate EpochInUse(c: Core, s: Id, epoch: int) {
    exists b :: b in c.bindings && c.bindings[b].subjectId == s && c.bindings[b].epoch == epoch
  }

  ghost predicate EvidenceDerivation(c: Core) {
    forall e :: e in c.evidence ==> Supported(c.evidence, c.evidence[e])
  }

  ghost predicate EventIdentity(c: Core) {
    && (forall i, j :: 0 <= i < j < |c.eventOrder| ==> c.eventOrder[i] != c.eventOrder[j])
    && (forall e :: e in c.eventOrder <==> e in c.events)
    && (forall e :: e in c.eventOrder ==> c.events[e].id == e)
  }

  ghost predicate OutputIntegrity(c: Core) {
    forall o :: o in c.outputs ==> c.outputs[o].attemptId in c.attempts && c.outputs[o].evidenceIds <= c.evidence.Keys
  }

  /** No INVALID State is compatible with the context of any running request. */
  ghost predicate StateValidityCheck(c: Core, valid: SemanticValidity) {
    forall s, r ::
      && s in c.states && c.states[s].validity == StateInvalid
      && r in c.requests && Truthy(c.requests[r].currentAttemptId) ==>
        && c.requests[r].continuationId in c.continuations
        && c.continuations[c.requests[r].continuationId].sessionId in c.sessions
        && !Compatible(c, s, RequestContext(c, r), valid)
  }

  ghost function RequestContext(c: Core, r: Id): ExecutionContext
    requires r in c.requests && c.requests[r].currentAttemptId.Some? && c.requests[r].continuationId in c.continuations
    requires c.continuations[c.requests[r].continuationId].sessionId in c.sessions
  {
    var k := c.requests[r].continuationId;
    var s := c.continuations[k].sessionId;
    ExecutionContext(c.sessions[s].programId, s, k, r, c.requests[r].currentAttemptId.value, None)
  }

  ghost predicate OracleAccepts(c: Core, valid: SemanticValidity) {
    && GlobalIdentityUniqueness(c)
    && ParentScopes(c)
    && AttemptAuthorityCheck(c)
    && AttemptGenerations(c)
    && RequestCommitConsistency(c)
    && ContinuationDags(c)
    && PhaseOrdering(c)
    && StateProvenance(c)
    && ReplicaIntegrity(c)
    && BindingAuthority(c)
    && BindingGenerations(c)
    && EvidenceDerivation(c)
    && EventIdentity(c)
    && OutputIntegrity(c)
    && StateValidityCheck(c, valid)
  }
}
