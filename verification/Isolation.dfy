/**
 Who may consume whose States in a reached core: the product of an attempt stays with that attempt until its
 own request commits it, and only running requests consume at all.
 */
module Isolation {
  import opened Entities
  import opened CoreSpec
  import opened Graphs
  import opened StateCompatibility
  import opened Invariant
  import opened RunInvariant
  import opened CoreRuns
  import opened Oracle
  import opened OracleRuns
  import opened Fencing
  import opened EvidenceRuns

  /** The contexts that count: those of running requests, possibly inside a started phase of the current attempt. */
  lemma ContextsOfRunningRequests(c: Core, ctx: ExecutionContext)
    requires Sound(c)
    ensures ContextConsistent(c, ctx) <==>
              && ctx.requestId in c.requests && c.requests[ctx.requestId].status == RequestRunning
              && c.requests[ctx.requestId].continuationId in c.continuations
              && c.continuations[c.requests[ctx.requestId].continuationId].sessionId in c.sessions
              && ctx == RequestContext(c, ctx.requestId).(phaseId := ctx.phaseId)
              && (ctx.phaseId.Some? ==>
                    ctx.phaseId.value in c.phases && c.phases[ctx.phaseId.value].attemptId == ctx.attemptId
                    && c.phases[ctx.phaseId.value].status in {PhaseRunning, PhaseCompleted})
  {
  }

  /** The request whose attempt made the State, if an attempt did. */
  function Maker(c: Core, x: ReusableState): Option<Id> {
    if x.producerAttemptId.Some? && x.producerAttemptId.value in c.attempts
    then Some(c.attempts[x.producerAttemptId.value].requestId) else None
  }

  /** The attempt that made the State is the one its own request committed. */
  predicate MadeByCommitted(c: Core, x: ReusableState) {
    && x.producerAttemptId.Some? && Maker(c, x).Some? && Maker(c, x).value in c.requests
    && c.requests[Maker(c, x).value].status == RequestCompleted
    && c.requests[Maker(c, x).value].committedAttemptId == x.producerAttemptId
  }

  /** A State made in a phase of the consuming attempt was made in an earlier phase than the consuming one. */
  predicate MadeEarlier(c: Core, x: ReusableState, ctx: ExecutionContext) {
    Truthy(x.producerPhaseId) && x.producerAttemptId == Some(ctx.attemptId) ==>
      && ctx.phaseId.Some? && ctx.phaseId.value in c.phases && x.producerPhaseId.value in c.phases
      && c.phases[x.producerPhaseId.value].ordinal < c.phases[ctx.phaseId.value].ordinal
  }

  /**
   What a context may use: a VALID State from an ancestor that the semantic predicate passes and, if an attempt made
   it, one whose attempt is the context's own (at a later phase) or was committed by its own request. The request
   called "" is the exception: nothing it commits is ever shared.
   */
  ghost predicate MayUse(c: Core, x: ReusableState, ctx: ExecutionContext, valid: SemanticValidity) {
    && x.validity == StateValid && Ancestor(c.continuations, x.originContinuationId, ctx.continuationId)
    && (Truthy(x.producerAttemptId) ==>
          || x.producerAttemptId.value == ctx.attemptId
          || (MadeByCommitted(c, x) && Maker(c, x) != Some("")))
    && MadeEarlier(c, x, ctx) && valid(x, ctx)
  }

  /** The isolation law for one State: the local check decides exactly that. */
  lemma OwnOrCommitted(c: Core, t: Id, ctx: ExecutionContext, valid: SemanticValidity)
    requires Sound(c) && ContextConsistent(c, ctx) && t in c.states
    ensures LocallyCompatible(c, c.states[t], ctx, valid) <==> MayUse(c, c.states[t], ctx, valid)
  {
    hide Sound, Ancestor, ContextConsistent, ProducerHasAuthority, Maker, MadeByCommitted, RequestsStand;
    var x := c.states[t];
    MakerOfState(c, t);
    RequestsOf(c);
    AuthorityOfMaker(c, x, ctx);
  }

  /** What the run invariant says about the attempt behind a State. */
  lemma MakerOfState(c: Core, t: Id)
    requires Sound(c) && t in c.states
    ensures var x := c.states[t]; x.producerAttemptId.Some? ==>
              Maker(c, x).Some? && Maker(c, x).value in c.requests && x.originRequestId == Maker(c, x)
  {
    RequestsOf(c);
    assert OriginStands(c.states[t], c.continuations, c.requests, c.attempts, c.phases);
    hide Sound;
    OriginNamesMaker(c, c.states[t]);
  }

  lemma RequestsOf(c: Core)
    requires Sound(c)
    ensures RequestsKeyed(c.requests) && RequestsStand(c.requests, c.attempts, c.outputs)
  {
    SoundKeys(c);
    hide WellFormed, Identity, StatesSound, BindingsSound, EvidenceStands, EventsStand, RequestsStand;
  }

  lemma OriginNamesMaker(c: Core, x: ReusableState)
    requires RequestsKeyed(c.requests) && RequestsStand(c.requests, c.attempts, c.outputs)
    requires OriginStands(x, c.continuations, c.requests, c.attempts, c.phases)
    ensures x.producerAttemptId.Some? ==>
              Maker(c, x).Some? && Maker(c, x).value in c.requests && x.originRequestId == Maker(c, x)
  {
    if x.originType == FromRequest {
      assert RequestStands(c.requests[x.originId], c.attempts, c.outputs);
    }
  }

  lemma AuthorityOfMaker(c: Core, x: ReusableState, ctx: ExecutionContext)
    requires RequestsKeyed(c.requests) && RequestsStand(c.requests, c.attempts, c.outputs) && ContextConsistent(c, ctx)
    requires x.producerAttemptId.Some? ==>
               Maker(c, x).Some? && Maker(c, x).value in c.requests && x.originRequestId == Maker(c, x)
    ensures ProducerHasAuthority(c, x, ctx) <==>
              (Truthy(x.producerAttemptId) ==>
                 x.producerAttemptId.value == ctx.attemptId || (MadeByCommitted(c, x) && Maker(c, x) != Some("")))
  {
    if Truthy(x.producerAttemptId) {
      assert RequestStands(c.requests[Maker(c, x).value], c.attempts, c.outputs);
      assert RequestStands(c.requests[ctx.requestId], c.attempts, c.outputs);
    }
  }

  // ---------- the whole derivation closure ----------

  /** In any core: each State a compatible one rests on is VALID, and its producer committed or is the context's. */
  lemma ProductsStayPrivate(c: Core, s: Id, t: Id, ctx: ExecutionContext, valid: SemanticValidity)
    requires Compatible(c, s, ctx, valid) && Reaches(Provenance(c.states), s, t)
    ensures t in c.states && c.states[t].validity == StateValid && valid(c.states[t], ctx)
    ensures Ancestor(c.continuations, c.states[t].originContinuationId, ctx.continuationId)
    ensures var x := c.states[t];
            x.producerAttemptId.Some? && x.producerAttemptId.value != "" ==>
              && x.producerAttemptId.value in c.attempts
              && if x.originRequestId.Some? && x.originRequestId.value != "" && x.originRequestId.value in c.requests
                    && c.requests[x.originRequestId.value].status == RequestCompleted
                 then c.requests[x.originRequestId.value].committedAttemptId == x.producerAttemptId
                      && c.attempts[x.producerAttemptId.value].authorityStatus != Superseded
                 else x.producerAttemptId.value == ctx.attemptId
                      && c.attempts[x.producerAttemptId.value].authorityStatus == Current
  {
    hide Ancestor, ContextConsistent;
    assert Fit(c, t, ctx, valid, {});
  }

  /** After every run: what compatibility means, over the whole closure and nothing but the fields. */
  lemma CompatibleExactly(ops: seq<Op>, s: Id, ctx: ExecutionContext, valid: SemanticValidity)
    ensures var c := Run(EmptyCore, ops);
            Compatible(c, s, ctx, valid) <==>
              && ContextConsistent(c, ctx) && s in c.states
              && forall t :: t in c.states && Reaches(Provenance(c.states), s, t) ==> MayUse(c, c.states[t], ctx, valid)
  {
    hide Sound, Run, MayUse, LocallyCompatible, Compatible;
    RunKeepsSoundFromEmpty(ops);
    var c := Run(EmptyCore, ops);
    ProvenanceIsSound(c);
    CompatibleIffClosureLocallyCompatible(c, s, ctx, valid);
    if ContextConsistent(c, ctx) {
      forall t | t in c.states
        ensures LocallyCompatible(c, c.states[t], ctx, valid) <==> MayUse(c, c.states[t], ctx, valid)
      {
        OwnOrCommitted(c, t, ctx, valid);
      }
    }
  }

  lemma ProvenanceIsSound(c: Core)
    requires Sound(c)
    ensures Closed(Provenance(c.states)) && !HasCycle(Provenance(c.states))
  {
    WellFormedGraphsClosed(c);
    hide Closed, HasCycle, WellFormed, Identity, WorkSound, BindingsSound, EvidenceStands, EventsStand;
  }

  // ---------- whole runs ----------

  /**
   A State made for one request reaches a context of another request only after its own request was finalized with
   an output of the very attempt that made it. A context of the same request sees only its own attempt's States.
   */
  lemma SharedOnlyAfterCommit(ops: seq<Op>, s: Id, t: Id, ctx: ExecutionContext, valid: SemanticValidity)
    requires var c := Run(EmptyCore, ops);
             && Compatible(c, s, ctx, valid) && Reaches(Provenance(c.states), s, t)
             && t in c.states && Truthy(c.states[t].producerAttemptId)
    ensures var c := Run(EmptyCore, ops); var x := c.states[t];
            && Maker(c, x).Some?
            && (Maker(c, x).value == ctx.requestId ==> x.producerAttemptId == Some(ctx.attemptId))
            && (Maker(c, x).value != ctx.requestId ==>
                  && Maker(c, x).value in c.requests
                  && c.requests[Maker(c, x).value].committedAttemptId == x.producerAttemptId
                  && exists i :: FinalizedAt(ops, i, Maker(c, x).value))
  {
    hide Sound, Run, LocallyCompatible, FinalizedAt, MadeEarlier, Ancestor;
    RunKeepsSoundFromEmpty(ops);
    var c := Run(EmptyCore, ops);
    CompatibleExactly(ops, s, ctx, valid);
    var x := c.states[t];
    assert MayUse(c, x, ctx, valid);
    MakerOfState(c, t);
    RunsItsOwn(c, ctx);
    if x.producerAttemptId.value != ctx.attemptId {
      CompletedWasFinalized(ops, Maker(c, x).value);
    }
  }

  lemma RunsItsOwn(c: Core, ctx: ExecutionContext)
    requires Sound(c) && ContextConsistent(c, ctx)
    ensures ctx.requestId in c.requests && c.requests[ctx.requestId].status == RequestRunning
    ensures ctx.attemptId in c.attempts && c.attempts[ctx.attemptId].requestId == ctx.requestId
  {
    ContextsOfRunningRequests(c, ctx);
    hide Sound;
  }
}
