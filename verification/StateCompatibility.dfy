/** When an execution context may consume a reusable State. */
module StateCompatibility {
  import opened Entities
  import opened CoreSpec
  import opened EvidenceGate
  import opened Graphs

  /** The caller-supplied semantic predicate, uninterpreted here. */
  type SemanticValidity = (ReusableState, ExecutionContext) -> bool

  /** The context names a live chain from Program to CURRENT Attempt, and a started Phase if any. */
  predicate ContextConsistent(c: Core, ctx: ExecutionContext) {
    && ctx.programId in c.programs && ctx.sessionId in c.sessions && ctx.continuationId in c.continuations
    && ctx.requestId in c.requests && ctx.attemptId in c.attempts
    && c.sessions[ctx.sessionId].programId == ctx.programId
    && c.continuations[ctx.continuationId].sessionId == ctx.sessionId
    && c.requests[ctx.requestId].continuationId == ctx.continuationId
    && c.attempts[ctx.attemptId].requestId == ctx.requestId
    && c.requests[ctx.requestId].currentAttemptId == Some(ctx.attemptId)
    && c.attempts[ctx.attemptId].authorityStatus == Current
    && (ctx.phaseId.Some? ==>
          ctx.phaseId.value in c.phases && c.phases[ctx.phaseId.value].attemptId == ctx.attemptId
          && c.phases[ctx.phaseId.value].status in {PhaseRunning, PhaseCompleted})
  }

  /** The producing Attempt still has authority: committed for its request, or the context's own. */
  predicate ProducerHasAuthority(c: Core, x: ReusableState, ctx: ExecutionContext) {
    Truthy(x.producerAttemptId) ==>
      var a := x.producerAttemptId.value;
      && a in c.attempts && c.attempts[a].authorityStatus != Superseded
      && if Truthy(x.originRequestId) && x.originRequestId.value in c.requests
            && c.requests[x.originRequestId.value].status == RequestCompleted
         then c.requests[x.originRequestId.value].committedAttemptId == Some(a)
         else a == ctx.attemptId && c.attempts[a].authorityStatus == Current
  }

  /** Inside one Attempt a Phase consumes only what an earlier Phase produced. */
  predicate ConsumedByLaterPhase(c: Core, x: ReusableState, ctx: ExecutionContext) {
    Truthy(x.producerPhaseId) && x.producerAttemptId == Some(ctx.attemptId) ==>
      && ctx.phaseId.Some? && ctx.phaseId.value in c.phases && x.producerPhaseId.value in c.phases
      && c.phases[x.producerPhaseId.value].ordinal < c.phases[ctx.phaseId.value].ordinal
  }

  ghost predicate LocallyCompatible(c: Core, x: ReusableState, ctx: ExecutionContext, valid: SemanticValidity) {
    && x.validity == StateValid
    && Ancestor(c.continuations, x.originContinuationId, ctx.continuationId)
    && ProducerHasAuthority(c, x, ctx)
    && ConsumedByLaterPhase(c, x, ctx)
    && valid(x, ctx)
  }

  /** Everything in the derivation closure is fit, lies on no derivation cycle and avoids `visiting`. */
  ghost predicate ClosureFit(c: Core, id: Id, ctx: ExecutionContext, valid: SemanticValidity, visiting: set<Id>) {
    && id in c.states
    && forall t :: Reaches(Provenance(c.states), id, t) ==> Fit(c, t, ctx, valid, visiting)
  }

  ghost predicate Fit(c: Core, t: Id, ctx: ExecutionContext, valid: SemanticValidity, visiting: set<Id>) {
    && t in c.states && t !in visiting
    && c.states[t].derivedFrom <= c.states.Keys
    && LocallyCompatible(c, c.states[t], ctx, valid)
    && !CycleAt(Provenance(c.states), t)
  }

  ghost predicate Compatible(c: Core, id: Id, ctx: ExecutionContext, valid: SemanticValidity) {
    ContextConsistent(c, ctx) && ClosureFit(c, id, ctx, valid, {})
  }

  function ConsumeScope(stateId: Id, replicaId: Id): Scope {
    {("state", stateId), ("replica", replicaId)}
  }

  /** What `can_consume_state` answers for an existing replica. */
  ghost predicate Consumable(c: Core, stateId: Id, replicaId: Id, ctx: ExecutionContext, valid: SemanticValidity,
                             evidenceIds: set<Id>, now: real)
    requires replicaId in c.replicas
  {
    && c.replicas[replicaId].stateId == stateId && c.replicas[replicaId].status == ReplicaValid
    && Compatible(c, stateId, ctx, valid)
    && Sufficient(Offered(c.evidence, evidenceIds), ConsumeState, now, ConsumeScope(stateId, replicaId), None)
  }

  /** The recursion of the check: the State itself, then each dependency with the State marked as visiting. */
  lemma ClosureFitUnfolds(c: Core, id: Id, ctx: ExecutionContext, valid: SemanticValidity, visiting: set<Id>)
    requires id in c.states
    ensures ClosureFit(c, id, ctx, valid, visiting) <==>
              && id !in visiting && LocallyCompatible(c, c.states[id], ctx, valid)
              && forall d :: d in c.states[id].derivedFrom ==> ClosureFit(c, d, ctx, valid, visiting + {id})
  {
    var g := Provenance(c.states);
    ReachesRefl(g, id);
    if ClosureFit(c, id, ctx, valid, visiting) {
      assert Fit(c, id, ctx, valid, visiting);
      forall d, t | d in c.states[id].derivedFrom && Reaches(g, d, t)
        ensures d in c.states && Fit(c, t, ctx, valid, visiting + {id})
      {
        ReachesEdge(g, id, d);
        ReachesTrans(g, id, d, t);
        assert Fit(c, t, ctx, valid, visiting);
        if t == id {
          CycleFromEdge(g, id, d);
        }
      }
      forall d | d in c.states[id].derivedFrom
        ensures ClosureFit(c, d, ctx, valid, visiting + {id})
      {
      }
    }
    if id !in visiting && LocallyCompatible(c, c.states[id], ctx, valid)
       && forall d :: d in c.states[id].derivedFrom ==> ClosureFit(c, d, ctx, valid, visiting + {id}) {
      forall t | Reaches(g, id, t)
        ensures Fit(c, t, ctx, valid, visiting)
      {
        ReachesSplit(g, id, t);
        if t == id {
          NoCycleBelow(c, id, ctx, valid, visiting);
        } else {
          var d :| d in g[id] && Reaches(g, d, t);
          assert ClosureFit(c, d, ctx, valid, visiting + {id});
          assert Fit(c, t, ctx, valid, visiting + {id});
        }
      }
    }
  }

  lemma NoCycleBelow(c: Core, id: Id, ctx: ExecutionContext, valid: SemanticValidity, visiting: set<Id>)
    requires id in c.states
    requires forall d :: d in c.states[id].derivedFrom ==> ClosureFit(c, d, ctx, valid, visiting + {id})
    ensures !CycleAt(Provenance(c.states), id)
  {
    var g := Provenance(c.states);
    if CycleAt(g, id) {
      CycleHasEdge(g, id);
    }
  }

  /**
   The theorem about the check: in an acyclic, closed derivation graph the `visiting` guard decides
   nothing, and compatibility is exactly a consistent context plus a local check of the whole closure.
   */
  lemma CompatibleIffClosureLocallyCompatible(c: Core, id: Id, ctx: ExecutionContext, valid: SemanticValidity)
    requires Closed(Provenance(c.states)) && !HasCycle(Provenance(c.states))
    ensures Compatible(c, id, ctx, valid) <==>
              && ContextConsistent(c, ctx) && id in c.states
              && forall t :: t in c.states && Reaches(Provenance(c.states), id, t) ==>
                 LocallyCompatible(c, c.states[t], ctx, valid)
  {
    var g := Provenance(c.states);
    forall t | Reaches(g, id, t)
      ensures t in c.states && (Fit(c, t, ctx, valid, {}) <==> LocallyCompatible(c, c.states[t], ctx, valid))
    {
      ReachesSplit(g, id, t);
      assert g[t] == c.states[t].derivedFrom;
      assert !CycleAt(g, t);
    }
  }

  /** One unfit State in the closure is enough, whatever the context and the semantic predicate say. */
  lemma UnfitAncestorBlocks(c: Core, id: Id, t: Id, ctx: ExecutionContext, valid: SemanticValidity)
    requires t in c.states && Reaches(Provenance(c.states), id, t)
    requires || c.states[t].validity == StateInvalid
             || (Truthy(c.states[t].producerAttemptId) && c.states[t].producerAttemptId.value in c.attempts
                 && c.attempts[c.states[t].producerAttemptId.value].authorityStatus == Superseded)
    ensures !Compatible(c, id, ctx, valid)
  {
    assert !Fit(c, t, ctx, valid, {});
  }
}
