/**
 The Evidence behind every authority a run hands out: each completed request and each current binding goes
 back to one call, and that call offered Evidence that was valid, observed and unexpired at the call's own time.
 */
module EvidenceRuns {
  import opened Entities
  import opened EvidenceGate
  import opened CoreSpec
  import opened Graphs
  import opened StateCompatibility
  import opened Invariant
  import opened RunInvariant
  import opened CoreRuns
  import opened Fencing
  import opened OracleRuns

  /** One of the recorded items is VALID, an observation, unexpired at `now` and covers the scope. */
  ghost predicate Vouched(evidence: map<Id, Evidence>, ids: set<Id>, now: real, scope: Scope) {
    exists i :: i in ids && i in evidence && Vouches(evidence[i], now, scope)
  }

  predicate Vouches(e: Evidence, now: real, scope: Scope) {
    && e.status == EvidenceValid && e.authority in {ExactObservation, Authoritative} && scope <= e.scope
    && (e.validUntil.None? || now <= e.validUntil.value)
  }

  lemma GateVouches(evidence: map<Id, Evidence>, ids: set<Id>, action: EvidenceAction, now: real, scope: Scope)
    requires action in {Finalize, ConsumeState, CommitMigrationAction}
    requires Sufficient(Offered(evidence, ids), action, now, scope, None)
    ensures Vouched(evidence, ids, now, scope)
    ensures forall i :: i in ids && i in evidence ==> evidence[i].status != Ambiguous
  {
    GateOverFields(Offered(evidence, ids), action, now, scope, None);
    var e :| e in Offered(evidence, ids) && scope <= e.scope && Usable(e, true, now, None);
    var i :| i in ids && i in evidence && evidence[i] == e;
    assert Vouches(evidence[i], now, scope);
    hide Sufficient;
    forall j | j in ids && j in evidence ensures evidence[j].status != Ambiguous {
      assert evidence[j] in Offered(evidence, ids);
    }
  }

  // ---------- one call ----------

  /** A request is finalized only on Evidence for the output's attempt that has not expired at the call's time. */
  lemma FinalizationIsVouched(c: Core, r: Id, o: Id, now: real)
    requires Accepted(c, FinalizeRequest(r, o, now)) && !(r in c.requests && c.requests[r].status == RequestCompleted)
    ensures o in c.outputs && c.outputs[o].attemptId in c.attempts
    ensures Vouched(c.evidence, c.outputs[o].evidenceIds, now, {("attempt", c.attempts[c.outputs[o].attemptId].id)})
  {
    hide Sufficient, Vouched;
    GateVouches(c.evidence, c.outputs[o].evidenceIds, Finalize, now,
        {("attempt", c.attempts[c.outputs[o].attemptId].id)});
  }

  /** A migration commits only on Evidence for this binding and this epoch that has not expired at the call's time. */
  lemma CommitIsVouched(c: Core, b: Id, offered: seq<Id>, now: real)
    requires Accepted(c, CommitMigration(b, offered, now))
    ensures b in c.bindings
    ensures Vouched(c.evidence, (set i | i in offered), now,
                    {("binding", c.bindings[b].id), ("epoch", Decimal(c.bindings[b].epoch))})
  {
    hide Sufficient, Vouched;
    GateVouches(c.evidence, (set i | i in offered), CommitMigrationAction, now,
        {("binding", c.bindings[b].id), ("epoch", Decimal(c.bindings[b].epoch))});
  }

  /** A State is consumed only on Evidence for this State in this replica that has not expired. */
  lemma ConsumptionIsVouched(c: Core, s: Id, p: Id, ctx: ExecutionContext, valid: SemanticValidity, ids: set<Id>,
      now: real)
    requires p in c.replicas && Consumable(c, s, p, ctx, valid, ids, now)
    ensures Vouched(c.evidence, ids, now, {("state", s), ("replica", p)})
    ensures c.replicas[p].stateId == s && c.replicas[p].status == ReplicaValid && Compatible(c, s, ctx, valid)
  {
    hide Sufficient, Vouched, Compatible;
    GateVouches(c.evidence, ids, ConsumeState, now, {("state", s), ("replica", p)});
  }

  // ---------- whole runs ----------

  /** The i-th call finalized request `r` with its output, on Evidence that was unexpired at the call's time. */
  ghost predicate FinalizedAt(ops: seq<Op>, i: nat, r: Id) {
    && i < |ops| && Accepted(Run(EmptyCore, ops[..i]), ops[i])
    && r in Run(EmptyCore, ops[..i]).requests && Run(EmptyCore, ops[..i]).requests[r].status == RequestRunning
    && FinalizedBy(Run(EmptyCore, ops), ops[i], r)
  }

  /** The call finalizes the request, and the core still holds its output, its attempt and the Evidence. */
  ghost predicate FinalizedBy(d: Core, op: Op, r: Id) {
    && op.FinalizeRequest? && op.requestId == r && r in d.requests
    && d.requests[r].authoritativeOutputId == Some(op.outputId) && op.outputId in d.outputs
    && d.requests[r].committedAttemptId == Some(d.outputs[op.outputId].attemptId)
    && Vouched(d.evidence, d.outputs[op.outputId].evidenceIds, op.now,
               {("attempt", d.outputs[op.outputId].attemptId)})
  }

  /** Every completed request of every run was finalized by one call, on Evidence unexpired at that call's time. */
  lemma {:induction false} CompletedWasFinalized(ops: seq<Op>, r: Id)
    requires var d := Run(EmptyCore, ops); r in d.requests && d.requests[r].status == RequestCompleted
    ensures exists i :: FinalizedAt(ops, i, r)
  {
    hide Sound, FinalizedAt;
    if ops != [] {
      var n := |ops| - 1;
      var c := Run(EmptyCore, ops[..n]);
      RunKeepsSoundFromEmpty(ops[..n]);
      if r in c.requests && c.requests[r].status == RequestCompleted {
        CompletedWasFinalized(ops[..n], r);
        var i: nat :| FinalizedAt(ops[..n], i, r);
        FinalizedStays(ops, i, r);
      } else {
        OnlyFinalizationCompletes(c, ops[n], r);
        FinalizedNow(ops, r);
      }
    }
  }

  /** Another status becomes COMPLETED only by a finalization of this very request. */
  lemma OnlyFinalizationCompletes(c: Core, op: Op, r: Id)
    requires !(r in c.requests && c.requests[r].status == RequestCompleted)
    requires r in Step(c, op).requests && Step(c, op).requests[r].status == RequestCompleted
    ensures op.FinalizeRequest? && op.requestId == r && Accepted(c, op)
    ensures r in c.requests && op.outputId in c.outputs && Step(c, op) == AfterFinalize(c, r, op.outputId)
  {
    hide StructureFaults, WorkFaults, StateFaults, RecordFaults, StructureEffect, StateEffect, RecordEffect, WorkEffect;
    if Accepted(c, op) {
      if StructureOp(op) { StructureCompletesNone(c, op, r); }
      else if StateOp(op) { StateLeavesRequests(c, op); }
      else if RecordOp(op) { RecordLeavesRequests(c, op); }
      else { WorkCompletes(c, op, r); }
    }
  }

  /** Structure operations leave Evidence alone and complete no request. */
  lemma StructureCompletesNone(c: Core, op: Op, r: Id)
    requires StructureOp(op) && StructureFaults(c, op) == {}
    ensures StructureEffect(c, op).evidence == c.evidence
    ensures var d := StructureEffect(c, op);
            r in d.requests && d.requests[r].status == RequestCompleted ==>
              r in c.requests && c.requests[r].status == RequestCompleted
  {
    hide ContinuationFaults, Refreshed, Taken;
  }

  lemma StateLeavesRequests(c: Core, op: Op)
    requires StateOp(op) && StateFaults(c, op) == {}
    ensures StateEffect(c, op).requests == c.requests && StateEffect(c, op).evidence == c.evidence
  {
    hide CreateStateFaults, Refreshed, ResolveOrigin;
  }

  lemma RecordLeavesRequests(c: Core, op: Op)
    requires RecordOp(op) && RecordFaults(c, op) == {}
    ensures RecordEffect(c, op).requests == c.requests
  {
    hide Sufficient, Offered, Supported, Displace, EvidenceFaults, EventFaults, Idle;
  }

  lemma WorkCompletes(c: Core, op: Op, r: Id)
    requires WorkOp(op) && WorkFaults(c, op) == {}
    requires !(r in c.requests && c.requests[r].status == RequestCompleted)
    requires r in WorkEffect(c, op).requests && WorkEffect(c, op).requests[r].status == RequestCompleted
    ensures op.FinalizeRequest? && op.requestId == r && r in c.requests && op.outputId in c.outputs
    ensures c.outputs[op.outputId].attemptId in c.attempts && WorkEffect(c, op) == AfterFinalize(c, r, op.outputId)
  {
    hide Sufficient, Offered, Fence, Next, AttemptNumbers, PhaseNumbers;
  }

  lemma FinalizedNow(ops: seq<Op>, r: Id)
    requires ops != []
    requires var c, op := Run(EmptyCore, ops[..|ops| - 1]), ops[|ops| - 1];
             && Sound(c) && op.FinalizeRequest? && op.requestId == r && Accepted(c, op) && r in c.requests
             && op.outputId in c.outputs && c.outputs[op.outputId].attemptId in c.attempts
             && c.requests[r].status != RequestCompleted && Step(c, op) == AfterFinalize(c, r, op.outputId)
    ensures FinalizedAt(ops, |ops| - 1, r)
  {
    hide Sound, Step, Accepted, FinalizedBy;
    FinalizationLeaves(Run(EmptyCore, ops[..|ops| - 1]), ops[|ops| - 1], r);
  }

  lemma FinalizationLeaves(c: Core, op: Op, r: Id)
    requires Sound(c) && op.FinalizeRequest? && op.requestId == r && Accepted(c, op) && r in c.requests
    requires op.outputId in c.outputs && c.outputs[op.outputId].attemptId in c.attempts
    requires c.requests[r].status != RequestCompleted
    ensures c.requests[r].status == RequestRunning && FinalizedBy(AfterFinalize(c, r, op.outputId), op, r)
  {
    hide Sound, Vouched, Accepted, FinalizedBy, AfterFinalize, FinalizeFaults;
    SoundKeys(c);
    SoundParts(c);
    FinalizationIsVouched(c, r, op.outputId, op.now);
    FinalizeAccepted(c, op);
    FinalizesRunning(c, op, r);
    AfterFinalizeStands(c, op, r);
  }

  lemma FinalizeAccepted(c: Core, op: Op)
    requires op.FinalizeRequest? && Accepted(c, op)
    ensures FinalizeFaults(c, op.requestId, op.outputId, op.now) == {}
  {
    hide StructureFaults, StateFaults, RecordFaults, FinalizeFaults;
  }

  lemma AfterFinalizeStands(c: Core, op: Op, r: Id)
    requires op.FinalizeRequest? && op.requestId == r && r in c.requests && op.outputId in c.outputs
    requires c.outputs[op.outputId].attemptId in c.attempts
    requires Vouched(c.evidence, c.outputs[op.outputId].evidenceIds, op.now,
                     {("attempt", c.outputs[op.outputId].attemptId)})
    ensures FinalizedBy(AfterFinalize(c, r, op.outputId), op, r)
  {
    hide Vouched;
  }

  lemma FinalizesRunning(c: Core, op: Op, r: Id)
    requires RequestsStand(c.requests, c.attempts, c.outputs) && op.FinalizeRequest? && op.requestId == r
    requires FinalizeFaults(c, r, op.outputId, op.now) == {}
    requires r in c.requests && c.requests[r].status != RequestCompleted
    ensures c.requests[r].status == RequestRunning
  {
    hide Sufficient, Offered, Newest;
    assert RequestStands(c.requests[r], c.attempts, c.outputs);
  }

  lemma FinalizedStays(ops: seq<Op>, i: nat, r: Id)
    requires ops != [] && FinalizedAt(ops[..|ops| - 1], i, r)
    requires var c := Run(EmptyCore, ops[..|ops| - 1]); Sound(c) && c.requests[r].status == RequestCompleted
    ensures FinalizedAt(ops, i, r)
  {
    hide Sound, Step, Accepted, FinalizedBy, Evolves;
    var n := |ops| - 1;
    var c := Run(EmptyCore, ops[..n]);
    StepEvolves(c, ops[n]);
    assert ops[..n][..i] == ops[..i] && ops[..n][i] == ops[i];
    FinalizedLater(c, Run(EmptyCore, ops), ops[i], r);
  }

  lemma FinalizedLater(c: Core, d: Core, op: Op, r: Id)
    requires FinalizedBy(c, op, r) && Evolves(c, d) && c.requests[r].status == RequestCompleted
    ensures FinalizedBy(d, op, r)
  {
    hide AttemptsEvolve, PhasesEvolve, ContinuationsEvolve, StatesEvolve, BindingsEvolve, EpochsEvolve, EventsEvolve;
    VouchedStays(c.evidence, d.evidence, c.outputs[op.outputId].evidenceIds, op.now,
        {("attempt", c.outputs[op.outputId].attemptId)});
    hide Vouched, EvidenceEvolves;
  }

  lemma VouchedStays(before: map<Id, Evidence>, after: map<Id, Evidence>, ids: set<Id>, now: real, scope: Scope)
    requires EvidenceEvolves(before, after) && Vouched(before, ids, now, scope)
    ensures Vouched(after, ids, now, scope)
  {
  }

  // ---------- bindings ----------

  /** The call made the subject's current binding current: as its first one, or on Evidence unexpired at its time. */
  ghost predicate BoundBy(d: Core, op: Op, s: Id) {
    && s in d.currentBinding && d.currentBinding[s] in d.bindings
    && var b := d.bindings[d.currentBinding[s]];
    || (op.ActivateInitialBinding? && op.subjectId == s && op.id == b.id && op.locationId == b.locationId)
    || (op.CommitMigration? && op.bindingId == b.id
        && Vouched(d.evidence, (set i | i in op.offered), op.now, {("binding", b.id), ("epoch", Decimal(b.epoch))}))
  }

  ghost predicate BoundAt(ops: seq<Op>, i: nat, s: Id) {
    i < |ops| && Accepted(Run(EmptyCore, ops[..i]), ops[i]) && BoundBy(Run(EmptyCore, ops), ops[i], s)
  }

  /**
   Every current binding of every run was made current by one call: the subject's first activation, or a
   migration committed on Evidence for this binding and epoch that was unexpired at that call's time.
   */
  lemma {:induction false} CurrentWasBound(ops: seq<Op>, s: Id)
    requires s in Run(EmptyCore, ops).currentBinding
    ensures exists i :: BoundAt(ops, i, s)
  {
    hide Sound, BoundBy, Step, Evolves, Accepted;
    if ops != [] {
      var n := |ops| - 1;
      var c := Run(EmptyCore, ops[..n]);
      RunKeepsSoundFromEmpty(ops[..n]);
      if s in c.currentBinding && c.currentBinding[s] == Step(c, ops[n]).currentBinding[s] {
        CurrentWasBound(ops[..n], s);
        var i: nat :| BoundAt(ops[..n], i, s);
        assert ops[..n][..i] == ops[..i] && ops[..n][i] == ops[i];
        StepEvolves(c, ops[n]);
        BoundLater(c, Step(c, ops[n]), ops[i], s);
        assert BoundAt(ops, i, s);
      } else {
        OnlyTwoCallsBind(c, ops[n], s);
        assert BoundAt(ops, n, s);
      }
    }
  }

  lemma BoundLater(c: Core, d: Core, op: Op, s: Id)
    requires BoundBy(c, op, s) && Evolves(c, d) && s in d.currentBinding && d.currentBinding[s] == c.currentBinding[s]
    ensures BoundBy(d, op, s)
  {
    hide AttemptsEvolve, RequestsEvolve, PhasesEvolve, ContinuationsEvolve, StatesEvolve, EpochsEvolve, OutputsEvolve,
        EventsEvolve;
    var b := c.bindings[c.currentBinding[s]];
    if op.CommitMigration? && op.bindingId == b.id {
      if Vouched(c.evidence, (set i | i in op.offered), op.now, {("binding", b.id), ("epoch", Decimal(b.epoch))}) {
        VouchedStays(c.evidence, d.evidence, (set i | i in op.offered), op.now,
            {("binding", b.id), ("epoch", Decimal(b.epoch))});
      }
    }
    hide Vouched, EvidenceEvolves;
  }

  lemma OnlyTwoCallsBind(c: Core, op: Op, s: Id)
    requires Sound(c) && s in Step(c, op).currentBinding
    requires !(s in c.currentBinding && c.currentBinding[s] == Step(c, op).currentBinding[s])
    ensures Accepted(c, op) && BoundBy(Step(c, op), op, s)
  {
    hide Sound, BoundBy, Step, RecordEffect, RecordFaults;
    if !RecordOp(op) {
      OnlyRecordsRebind(c, op);
    } else {
      StepOfRecord(c, op);
      SoundKeys(c);
      RecordsBind(c, op, s);
      AcceptedRecord(c, op);
    }
    hide Accepted;
  }

  lemma AcceptedRecord(c: Core, op: Op)
    requires RecordOp(op)
    ensures Accepted(c, op) <==> RecordFaults(c, op) == {}
  {
    hide RecordFaults, StructureFaults, WorkFaults, StateFaults;
  }

  lemma RecordsBind(c: Core, op: Op, s: Id)
    requires BindingsKeyed(c.bindings) && RecordOp(op) && RecordFaults(c, op) == {}
    requires s in RecordEffect(c, op).currentBinding
    requires !(s in c.currentBinding && c.currentBinding[s] == RecordEffect(c, op).currentBinding[s])
    ensures BoundBy(RecordEffect(c, op), op, s)
  {
    hide BoundBy, AfterCommit, CommitFaults, AfterActivate, ActivateFaults, BindingsKeyed;
    if op.CommitMigration? {
      CommitBinds(c, op, s);
    } else if op.ActivateInitialBinding? {
      ActivationBinds(c, op, s);
    } else {
      CandidatesBindNothing(c, op);
    }
  }

  lemma CandidatesBindNothing(c: Core, op: Op)
    requires RecordOp(op) && RecordFaults(c, op) == {} && !op.CommitMigration? && !op.ActivateInitialBinding?
    ensures RecordEffect(c, op).currentBinding == c.currentBinding
  {
    hide NewBinding, EvidenceFaults, EventFaults, Idle;
  }

  lemma ActivationBinds(c: Core, op: Op, s: Id)
    requires op.ActivateInitialBinding? && ActivateFaults(c, op.id, op.subjectId) == {}
    requires var d := AfterActivate(c, op.id, op.subjectId, op.locationId);
             s in d.currentBinding && !(s in c.currentBinding && c.currentBinding[s] == d.currentBinding[s])
    ensures BoundBy(AfterActivate(c, op.id, op.subjectId, op.locationId), op, s)
  {
  }

  lemma CommitBinds(c: Core, op: Op, s: Id)
    requires op.CommitMigration? && BindingsKeyed(c.bindings) && CommitFaults(c, op.bindingId, op.offered, op.now) == {}
    requires var d := AfterCommit(c, op.bindingId);
             s in d.currentBinding && !(s in c.currentBinding && c.currentBinding[s] == d.currentBinding[s])
    ensures BoundBy(AfterCommit(c, op.bindingId), op, s)
  {
    hide Sufficient, Offered, Vouched, Displace;
    AcceptedCommit(c, op);
    CommitIsVouched(c, op.bindingId, op.offered, op.now);
  }

  lemma AcceptedCommit(c: Core, op: Op)
    requires op.CommitMigration?
    ensures Accepted(c, op) <==> CommitFaults(c, op.bindingId, op.offered, op.now) == {}
  {
    hide CommitFaults, StructureFaults, WorkFaults, StateFaults;
  }

  // ---------- derived Evidence ----------

  /** Which Evidence an item is derived from. */
  function Supports(evidence: map<Id, Evidence>): Graph<Id> {
    map e | e in evidence :: evidence[e].derivedFrom
  }

  /** An underived item that the derivation of `e` rests on speaks about `x`, and is VALID if `e` is. */
  ghost predicate RestsOn(evidence: map<Id, Evidence>, e: Id, root: Id, x: (string, string)) {
    && e in evidence && Reaches(Supports(evidence), e, root) && root in evidence
    && evidence[root].authority != Derived && evidence[root].derivedFrom == {} && x in evidence[root].scope
    && (evidence[e].status == EvidenceValid ==> evidence[root].status == EvidenceValid)
  }

  /** In every run derivation invents no scope and no validity: both come from Evidence that is not derived. */
  lemma {:induction false} DerivationIsGrounded(ops: seq<Op>, e: Id, x: (string, string))
    requires e in Run(EmptyCore, ops).evidence && x in Run(EmptyCore, ops).evidence[e].scope
    ensures exists root :: RestsOn(Run(EmptyCore, ops).evidence, e, root, x)
  {
    hide Sound, Step, Evolves, Accepted, RestsOn;
    if ops != [] {
      var n := |ops| - 1;
      var c, d := Run(EmptyCore, ops[..n]), Run(EmptyCore, ops);
      RunKeepsSoundFromEmpty(ops[..n]);
      StepEvolves(c, ops[n]);
      EvidenceEvolvesIn(c, d);
      if e in c.evidence {
        DerivationIsGrounded(ops[..n], e, x);
        var root :| RestsOn(c.evidence, e, root, x);
        RestsLater(c.evidence, d.evidence, e, root, x);
      } else {
        NewEvidenceIsSupported(c, ops[n], e);
        if d.evidence[e].derivedFrom == {} {
          RestsOnItself(d.evidence, e, x);
        } else {
          var s :| s in d.evidence[e].derivedFrom && s in c.evidence && x in c.evidence[s].scope;
          DerivationIsGrounded(ops[..n], s, x);
          var root :| RestsOn(c.evidence, s, root, x);
          RestsLater(c.evidence, d.evidence, s, root, x);
          RestsThrough(d.evidence, e, s, root, x);
        }
      }
    }
  }

  lemma EvidenceEvolvesIn(c: Core, d: Core)
    requires Evolves(c, d)
    ensures EvidenceEvolves(c.evidence, d.evidence)
  {
  }

  lemma RestsLater(before: map<Id, Evidence>, after: map<Id, Evidence>, e: Id, root: Id, x: (string, string))
    requires EvidenceEvolves(before, after) && RestsOn(before, e, root, x)
    ensures RestsOn(after, e, root, x)
  {
    var steps :| Walk(Supports(before), e, steps, root);
    WalkMono(Supports(before), Supports(after), e, steps, root);
  }

  lemma RestsOnItself(evidence: map<Id, Evidence>, e: Id, x: (string, string))
    requires e in evidence && evidence[e].authority != Derived && evidence[e].derivedFrom == {}
    requires x in evidence[e].scope
    ensures RestsOn(evidence, e, e, x)
  {
    ReachesRefl(Supports(evidence), e);
  }

  lemma RestsThrough(evidence: map<Id, Evidence>, e: Id, s: Id, root: Id, x: (string, string))
    requires e in evidence && s in evidence[e].derivedFrom && RestsOn(evidence, s, root, x)
    requires evidence[e].status == EvidenceValid ==> evidence[s].status == EvidenceValid
    ensures RestsOn(evidence, e, root, x)
  {
    ReachesEdge(Supports(evidence), e, s);
    ReachesTrans(Supports(evidence), e, s, root);
  }

  /** A newly recorded item is underived, or derived with a rule from recorded items that cover its scope. */
  lemma NewEvidenceIsSupported(c: Core, op: Op, e: Id)
    requires e in Step(c, op).evidence && e !in c.evidence
    ensures var v := Step(c, op).evidence[e];
            && (v.authority == Derived <==> v.derivedFrom != {})
            && (v.authority == Derived <==> Truthy(v.derivationRule))
            && v.derivedFrom <= c.evidence.Keys
            && (v.derivedFrom != {} ==> forall x :: x in v.scope ==>
                  exists s :: s in v.derivedFrom && s in c.evidence && x in c.evidence[s].scope)
            && (v.status == EvidenceValid ==> forall s :: s in v.derivedFrom && s in c.evidence ==>
                  c.evidence[s].status == EvidenceValid)
  {
    hide StructureFaults, WorkFaults, StateFaults, RecordFaults, StructureEffect, StateEffect, RecordEffect, WorkEffect;
    if Accepted(c, op) {
      if StructureOp(op) { StructureCompletesNone(c, op, e); }
      else if StateOp(op) { StateLeavesRequests(c, op); }
      else if WorkOp(op) { WorkLeavesEvidence(c, op); }
      else { RecordAddsEvidence(c, op, e); }
    }
  }

  lemma StartLeavesEvidence(c: Core, op: Op)
    requires op.StartAttempt?
    ensures op.requestId in c.requests ==> AfterStartAttempt(c, op.id, op.requestId).evidence == c.evidence
  {
  }

  lemma FinalizeLeavesEvidence(c: Core, op: Op)
    requires op.FinalizeRequest?
    ensures op.requestId in c.requests && op.outputId in c.outputs && c.outputs[op.outputId].attemptId in c.attempts ==>
              AfterFinalize(c, op.requestId, op.outputId).evidence == c.evidence
  {
  }

  lemma WorkLeavesEvidence(c: Core, op: Op)
    requires WorkOp(op) && WorkFaults(c, op) == {}
    ensures WorkEffect(c, op).evidence == c.evidence
  {
    hide Sufficient, Offered, Idle, Next, AttemptNumbers, PhaseNumbers, AfterStartAttempt, AfterFinalize;
    if op.StartAttempt? {
      StartLeavesEvidence(c, op);
    } else if op.FinalizeRequest? {
      FinalizeLeavesEvidence(c, op);
    } else {
      hide StartFaults, ExecutionFaults, CreatePhaseFaults, PhaseFaults, OutputFaults, FinalizeFaults;
    }
  }

  lemma RecordAddsEvidence(c: Core, op: Op, e: Id)
    requires RecordOp(op) && RecordFaults(c, op) == {} && e in RecordEffect(c, op).evidence && e !in c.evidence
    ensures op.RecordEvidence? && RecordEffect(c, op).evidence[e] == op.item
    ensures Supported(c.evidence, op.item)
  {
    hide Sufficient, Offered, Supported, Displace, EventFaults, NewBinding, FreshFaults, BeginFaults, ActivateFaults,
        CommitFaults, Taken;
  }
}
