/** What makes the core accept a new State, and what it then records, over the fields of the entities involved. */
module StateCreation {
  import opened Entities
  import opened CoreSpec
  import opened Graphs
  import opened Invariant
  import opened RunInvariant
  import opened CoreTheorems

  /** The declared origin can produce a State: a finished request, or work whose attempt was not SUPERSEDED. */
  predicate OriginProduces(c: Core, op: Op)
    requires op.CreateState?
  {
    var o := op.originId;
    match op.originType
    case FromContinuation => o in c.continuations
    case FromRequest =>
      o in c.requests && c.requests[o].status == RequestCompleted && c.requests[o].committedAttemptId != None
    case FromAttempt =>
      && o in c.attempts && c.attempts[o].requestId in c.requests
      && c.attempts[o].authorityStatus in {NoAuthority, Current, Committed}
    case FromPhase =>
      && o in c.phases && c.phases[o].status == PhaseCompleted
      && c.phases[o].attemptId in c.attempts && c.attempts[c.phases[o].attemptId].requestId in c.requests
      && c.attempts[c.phases[o].attemptId].authorityStatus in {NoAuthority, Current, Committed}
    case UnsupportedOrigin(_) => false
  }

  /** The attempt behind the origin, the request it works for and the continuation that belongs to. */
  function AttemptOf(c: Core, op: Op): Option<Id>
    requires op.CreateState?
  {
    match op.originType
    case FromRequest => if op.originId in c.requests then c.requests[op.originId].committedAttemptId else None
    case FromAttempt => Some(op.originId)
    case FromPhase => if op.originId in c.phases then Some(c.phases[op.originId].attemptId) else None
    case _ => None
  }

  function RequestOf(c: Core, op: Op): Option<Id>
    requires op.CreateState?
  {
    if op.originType == FromRequest then Some(op.originId)
    else if AttemptOf(c, op).Some? && AttemptOf(c, op).value in c.attempts
    then Some(c.attempts[AttemptOf(c, op).value].requestId) else None
  }

  function ContinuationOf(c: Core, op: Op): Id
    requires op.CreateState?
  {
    if RequestOf(c, op).Some? && RequestOf(c, op).value in c.requests
    then c.requests[RequestOf(c, op).value].continuationId else op.originId
  }

  /** The State may rest on `d`: made by an ancestor, and in an earlier phase if one attempt makes both. */
  ghost predicate MayRestOn(c: Core, op: Op, d: Id)
    requires op.CreateState?
  {
    && d in c.states
    && (c.states[d].originContinuationId == ContinuationOf(c, op)
        || Reaches(Parents(c.continuations), ContinuationOf(c, op), c.states[d].originContinuationId))
    && (op.originType == FromPhase && op.originId != "" && Truthy(c.states[d].producerPhaseId)
        && c.states[d].producerAttemptId == AttemptOf(c, op)
        && op.originId in c.phases && c.states[d].producerPhaseId.value in c.phases ==>
          c.phases[c.states[d].producerPhaseId.value].ordinal < c.phases[op.originId].ordinal)
  }

  /** Exactly when a State is accepted; no other reason to refuse one exists in a reached core. */
  lemma AcceptedStateExactly(c: Core, op: Op)
    requires Sound(c) && op.CreateState?
    ensures Accepted(c, op) <==>
              && (forall i :: !InUse(c, i, op.id)) && OriginProduces(c, op)
              && forall d :: d in op.derivedFrom ==> MayRestOn(c, op, d)
  {
    hide OriginOf, MayRestOn, OriginProduces, Taken, InUse, HasCycle, AnyDependencyFaults, Accepted, Sound;
    NotTaken(c, op.id);
    OriginIs(c, op);
    if OriginOf(c, op).Ok? {
      DependenciesAre(c, op);
    }
    StateAccepted(c, op);
    if !Taken(c, op.id) && OriginOf(c, op).Ok? && AnyDependencyFaults(c, OriginOf(c, op).value, op.derivedFrom) == {} {
      ProvenanceCycleCheckNeverFires(c, op);
    }
  }

  lemma NotTaken(c: Core, id: Id)
    ensures Taken(c, id) <==> exists i :: InUse(c, i, id)
  {
    if Taken(c, id) {
      assert
        || InUse(c, 0, id) || InUse(c, 1, id) || InUse(c, 2, id) || InUse(c, 3, id)
        || InUse(c, 4, id) || InUse(c, 5, id) || InUse(c, 6, id) || InUse(c, 7, id)
        || InUse(c, 8, id) || InUse(c, 9, id) || InUse(c, 10, id) || InUse(c, 11, id);
    }
  }

  lemma StateAccepted(c: Core, op: Op)
    requires op.CreateState?
    ensures Accepted(c, op) <==> CreateStateFaults(c, op) == {}
  {
    hide CreateStateFaults, StructureFaults, WorkFaults, RecordFaults;
  }

  /** What the origin resolves to, field by field. */
  lemma OriginIs(c: Core, op: Op)
    requires op.CreateState?
    ensures OriginOf(c, op).Ok? <==> OriginProduces(c, op)
    ensures OriginOf(c, op).Ok? ==> OriginOf(c, op).value == Declared(c, op)
  {
  }

  function Declared(c: Core, op: Op): Origin
    requires op.CreateState?
  {
    Origin(ContinuationOf(c, op), RequestOf(c, op), AttemptOf(c, op),
           if op.originType == FromPhase then Some(op.originId) else None)
  }

  lemma DependenciesAre(c: Core, op: Op)
    requires op.CreateState? && OriginOf(c, op).Ok?
    ensures AnyDependencyFaults(c, OriginOf(c, op).value, op.derivedFrom) == {} <==>
              forall d :: d in op.derivedFrom ==> MayRestOn(c, op, d)
    ensures AnyDependencyFaults(c, OriginOf(c, op).value, op.derivedFrom) == {} ==> op.derivedFrom <= c.states.Keys
  {
    var o := OriginOf(c, op).value;
    OriginIs(c, op);
    hide OriginOf, Reaches, Ancestor, Declared, MayRestOn, DependencyFaults;
    forall d ensures DependencyFaults(c, o, d) == {} <==> MayRestOn(c, op, d) {
      OneDependencyIs(c, op, d);
    }
    FaultlessDependencies(c, o, op.derivedFrom);
  }

  lemma FaultlessDependencies(c: Core, o: Origin, derivedFrom: set<Id>)
    ensures AnyDependencyFaults(c, o, derivedFrom) == {} <==>
              forall d :: d in derivedFrom ==> DependencyFaults(c, o, d) == {}
    ensures AnyDependencyFaults(c, o, derivedFrom) == {} ==> derivedFrom <= c.states.Keys
  {
    hide Ancestor, PhaseTooLate;
    forall d | d in derivedFrom && DependencyFaults(c, o, d) != {}
      ensures AnyDependencyFaults(c, o, derivedFrom) != {}
    {
      var e :| e in DependencyFaults(c, o, d);
      assert e in AnyDependencyFaults(c, o, derivedFrom);
    }
  }

  lemma OneDependencyIs(c: Core, op: Op, d: Id)
    requires op.CreateState?
    ensures DependencyFaults(c, Declared(c, op), d) == {} <==> MayRestOn(c, op, d)
  {
    hide Reaches, ContinuationOf, RequestOf, AttemptOf;
  }

  /** What an accepted creation records: the State as asked for, with where it was made, and nothing else. */
  lemma NewStateIsAsAsked(c: Core, op: Op)
    requires Sound(c) && op.CreateState? && Accepted(c, op)
    ensures op.id !in c.states && Step(c, op).states.Keys == c.states.Keys + {op.id}
    ensures var x := Step(c, op).states[op.id];
            && x.id == op.id && x.originType == op.originType && x.originId == op.originId
            && x.semanticType == op.semanticType && x.representation == op.representation
            && x.derivedFrom == op.derivedFrom && x.validity == StateValid
            && x.originContinuationId == ContinuationOf(c, op) && x.originRequestId == RequestOf(c, op)
            && x.producerAttemptId == AttemptOf(c, op)
            && x.producerPhaseId == if op.originType == FromPhase then Some(op.originId) else None
  {
    StateAccepted(c, op);
    OriginIs(c, op);
    NewStateStep(c, op);
    hide Sound, Accepted, Step, OriginOf, ContinuationOf, RequestOf, AttemptOf, CreateStateFaults;
  }

  lemma NewStateStep(c: Core, op: Op)
    requires op.CreateState? && CreateStateFaults(c, op) == {} && OriginOf(c, op).Ok?
    ensures op.id !in c.states && Step(c, op).states.Keys == c.states.Keys + {op.id}
    ensures var made := Step(c, op).states[op.id];
            made == NewState(OriginOf(c, op).value, op).(lifecycle := made.lifecycle)
  {
    hide StructureFaults, WorkFaults, RecordFaults, StructureEffect, WorkEffect, RecordEffect, HasCycle, OriginOf,
        AnyDependencyFaults, DerivedLifecycle;
  }
}
