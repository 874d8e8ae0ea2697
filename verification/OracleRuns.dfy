/** Exactly which runs from empty the oracle accepts. */
module OracleRuns {
  import opened Entities
  import opened EvidenceGate
  import opened CoreSpec
  import opened Graphs
  import opened Numbering
  import opened StateCompatibility
  import opened Invariant
  import opened RunInvariant
  import opened CoreRuns
  import opened Oracle

  // ---------- the fence, step by step ----------

  lemma StartMovesFence(c: Core, id: Id, r: Id)
    requires r in c.requests && id !in c.attempts && RequestsKeyed(c.requests)
    requires RequestStands(c.requests[r], c.attempts, c.outputs) && c.requests[r].status != RequestCompleted
    ensures var c' := AfterStartAttempt(c, id, r);
            AttemptFenced(c'.attempts, c'.requests) <==>
                AttemptFenced(c.attempts, c.requests) && c.requests[r].currentAttemptId != Some("")
  {
  }

  lemma FinalizeMovesFence(c: Core, r: Id, o: Id)
    requires r in c.requests && o in c.outputs && c.outputs[o].attemptId in c.attempts && RequestsKeyed(c.requests)
    requires RequestStands(c.requests[r], c.attempts, c.outputs)
    requires c.requests[r].currentAttemptId == Some(c.outputs[o].attemptId)
    ensures var c' := AfterFinalize(c, r, o);
            AttemptFenced(c'.attempts, c'.requests) <==> AttemptFenced(c.attempts, c.requests)
  {
  }

  /** What a work operation does to the fence around the empty attempt identifier. */
  lemma WorkMovesFence(c: Core, op: Op)
    requires RequestsKeyed(c.requests) && RequestsStand(c.requests, c.attempts, c.outputs) && WorkOp(op)
    requires WorkFaults(c, op) == {}
    ensures var c' := WorkEffect(c, op);
            && (AttemptFenced(c'.attempts, c'.requests) <==>
               AttemptFenced(c.attempts, c.requests) && !SlipsFence(c, op))
            && c'.bindings == c.bindings && c'.currentBinding == c.currentBinding
  {
    hide Sufficient, Offered, RequestStands, RequestsKeyed;
    if op.StartAttempt? {
      hide AttemptFenced;
      assert RequestStands(c.requests[op.requestId], c.attempts, c.outputs);
      StartMovesFence(c, op.id, op.requestId);
    } else if op.FinalizeRequest? && !Idle(c, op) {
      hide AttemptFenced;
      assert RequestStands(c.requests[op.requestId], c.attempts, c.outputs);
      FinalizeMovesFence(c, op.requestId, op.outputId);
    } else {
      hide FinalizeFaults, StartFaults;
    }
  }

  lemma StructureMovesFence(c: Core, op: Op)
    requires AttemptsResolve(c.requests.Keys, c.attempts) && StructureOp(op) && StructureFaults(c, op) == {}
    ensures Fenced(StructureEffect(c, op)) <==> Fenced(c)
  {
    hide ContinuationFaults, Refreshed;
  }

  lemma StateLeavesFence(c: Core, op: Op)
    requires StateOp(op) && StateFaults(c, op) == {}
    ensures Fenced(StateEffect(c, op)) <==> Fenced(c)
  {
    hide CreateStateFaults, Refreshed, Fenced, ResolveOrigin;
    var c' := StateEffect(c, op);
    assert c'.attempts == c.attempts && c'.requests == c.requests && c'.bindings == c.bindings &&
           c'.currentBinding == c.currentBinding;
    SameFence(c, c');
  }

  lemma SameFence(c: Core, c': Core)
    requires c'.attempts == c.attempts && c'.requests == c.requests && c'.bindings == c.bindings
    requires c'.currentBinding == c.currentBinding
    ensures Fenced(c') <==> Fenced(c)
  {
  }

  lemma CommitMovesFence(c: Core, b: Id)
    requires BindingsKeyed(c.bindings) && CurrentStands(c.bindings, c.currentBinding, c.currentEpoch)
    requires b in c.bindings && (c.bindings[b].status == Proposed || c.bindings[b].status == Migrating)
    ensures var c' := AfterCommit(c, b); var s := c.bindings[b].subjectId;
            BindingFenced(c'.bindings, c'.currentBinding) <==>
              BindingFenced(c.bindings, c.currentBinding) && !(s in c.currentBinding && c.currentBinding[s] == "")
  {
  }

  lemma ActivateMovesFence(c: Core, id: Id, subject: Id, location: string)
    requires CurrentStands(c.bindings, c.currentBinding, c.currentEpoch)
    requires BindingsStand(c.bindings, c.currentBinding, c.currentEpoch, c.lastAllocated)
    requires id !in c.bindings && subject !in c.currentBinding
    ensures var c' := AfterActivate(c, id, subject, location);
            BindingFenced(c'.bindings, c'.currentBinding) <==> BindingFenced(c.bindings, c.currentBinding)
  {
    if "" in c.bindings {
      assert BindingStands(c.bindings[""], c.currentBinding, c.currentEpoch, c.lastAllocated);
    }
  }

  lemma RecordMovesFence(c: Core, op: Op)
    requires BindingsKeyed(c.bindings) && BindingsSound(c.bindings, c.currentBinding, c.currentEpoch, c.lastAllocated)
    requires RecordOp(op) && RecordFaults(c, op) == {}
    ensures var c' := RecordEffect(c, op);
            BindingFenced(c'.bindings, c'.currentBinding) <==>
                BindingFenced(c.bindings, c.currentBinding) && !SlipsFence(c, op)
  {
    hide CurrentStands, BindingsStand, EpochsUnique, AllocatedStands, Sufficient, Offered, Supported, BindingFenced,
        EvidenceFaults, EventFaults, AfterRecordEvidence, AfterRecordEvent;
    match op
    case CommitMigration(b, _, _) => CommitMovesFence(c, b);
    case ActivateInitialBinding(id, subject, location) => ActivateMovesFence(c, id, subject, location);
    case ProposeBinding(id, subject, location) => CandidateLeavesFence(c,
        NewBinding(c, id, subject, location, Proposed));
    case BeginMigration(b) => CandidateLeavesFence(c, c.bindings[b].(status := Migrating));
    case RecordEvidence(e) => EvidenceLeavesBindings(c, e);
    case RecordEvent(e) => EventLeavesBindings(c, e);
  }

  lemma RecordLeavesWork(c: Core, op: Op)
    requires RecordOp(op) && RecordFaults(c, op) == {}
    ensures RecordEffect(c, op).attempts == c.attempts && RecordEffect(c, op).requests == c.requests
  {
    hide EvidenceFaults, EventFaults, FreshFaults, ActivateFaults, BeginFaults, CommitFaults, Idle;
  }

  lemma EvidenceLeavesBindings(c: Core, e: Evidence)
    ensures var c' := AfterRecordEvidence(c, e);
            && c'.attempts == c.attempts && c'.requests == c.requests
            && c'.bindings == c.bindings && c'.currentBinding == c.currentBinding
  {
  }

  lemma EventLeavesBindings(c: Core, e: SemanticEvent)
    ensures var c' := AfterRecordEvent(c, e);
            && c'.attempts == c.attempts && c'.requests == c.requests
            && c'.bindings == c.bindings && c'.currentBinding == c.currentBinding
  {
  }

  lemma CandidateLeavesFence(c: Core, b: Binding)
    requires b.status == Proposed || b.status == Migrating
    requires b.id in c.bindings ==> c.bindings[b.id].status == Proposed
    ensures BindingFenced(c.bindings[b.id := b], c.currentBinding) <==> BindingFenced(c.bindings, c.currentBinding)
  {
  }

  /**
   The fence survives a call exactly when the call does not slip past it, and once lost it is lost
   for good: no operation takes authority from an attempt or a binding called "".
   */
  lemma StepMovesFence(c: Core, op: Op)
    requires Sound(c)
    ensures Fenced(Step(c, op)) <==> Fenced(c) && !(Accepted(c, op) && SlipsFence(c, op))
  {
    hide StructureFaults, WorkFaults, StateFaults, RecordFaults, WellFormed, WorkSound, BindingsSound, StatesSound,
        AttemptFenced, BindingFenced, SlipsFence, StructureEffect, WorkEffect, StateEffect, RecordEffect;
    if Accepted(c, op) {
      assert RequestsKeyed(c.requests) && BindingsKeyed(c.bindings) && AttemptsResolve(c.requests.Keys, c.attempts)
             && RequestsStand(c.requests, c.attempts, c.outputs) by {
        SoundParts(c);
      }
      hide Sound;
      if StructureOp(op) { StructureMovesFence(c, op); OnlyTwoSlip(c, op); }
      else if WorkOp(op) { WorkMovesFence(c, op); }
      else if StateOp(op) { StateLeavesFence(c, op); OnlyTwoSlip(c, op); }
      else { RecordMovesFence(c, op); RecordLeavesWork(c, op); }
    }
  }

  lemma SoundParts(c: Core)
    requires Sound(c)
    ensures RequestsKeyed(c.requests) && BindingsKeyed(c.bindings) && AttemptsResolve(c.requests.Keys, c.attempts)
    ensures RequestsStand(c.requests, c.attempts, c.outputs)
  {
  }

  lemma OnlyTwoSlip(c: Core, op: Op)
    requires StructureOp(op) || StateOp(op)
    ensures !SlipsFence(c, op)
  {
  }

  // ---------- runs ----------

  /** No call of the run is an accepted one that slips past the fence. */
  ghost predicate NeverSlips(c: Core, ops: seq<Op>) {
    forall i :: 0 <= i < |ops| ==> !SlipsAt(c, ops, i)
  }

  ghost predicate SlipsAt(c: Core, ops: seq<Op>, i: nat)
    requires i < |ops|
  {
    Accepted(Run(c, ops[..i]), ops[i]) && SlipsFence(Run(c, ops[..i]), ops[i])
  }

  lemma {:induction false} RunKeepsFence(c: Core, ops: seq<Op>)
    requires Sound(c) && Fenced(c)
    ensures Fenced(Run(c, ops)) <==> NeverSlips(c, ops)
  {
    hide Sound, Fenced, Step, Accepted, SlipsFence;
    if ops != [] {
      var n := |ops| - 1;
      var before := ops[..n];
      RunKeepsFence(c, before);
      RunKeepsSound(c, before);
      StepMovesFence(Run(c, before), ops[n]);
      forall i | 0 <= i < n ensures SlipsAt(c, ops, i) <==> SlipsAt(c, before, i) {
        assert ops[..i] == before[..i];
      }
      assert SlipsAt(c, ops, n) <==> Accepted(Run(c, before), ops[n]) && SlipsFence(Run(c, before), ops[n]);
    }
  }

  // ---------- the oracle on sound cores ----------

  /** Whatever the i-th collection holds is held by no other. */
  lemma UsedOnce(c: Core, i: int)
    requires Identity(c)
    ensures forall k :: InUse(c, i, k) ==> Only(c, k, i)
  {
    hide Only, InUse, Identity;
    forall k | InUse(c, i, k) ensures Only(c, k, i) {
      OnlyWhereInUse(c, k, i);
    }
  }

  lemma FirstSixOnce(c: Core)
    requires Identity(c)
    ensures forall k :: k in c.programs ==> Only(c, k, 0)
    ensures forall k :: k in c.sessions ==> Only(c, k, 1)
    ensures forall k :: k in c.continuations ==> Only(c, k, 2)
    ensures forall k :: k in c.requests ==> Only(c, k, 3)
    ensures forall k :: k in c.attempts ==> Only(c, k, 4)
    ensures forall k :: k in c.phases ==> Only(c, k, 5)
  {
    hide Only, Identity;
    UsedOnce(c, 0); UsedOnce(c, 1); UsedOnce(c, 2); UsedOnce(c, 3); UsedOnce(c, 4); UsedOnce(c, 5);
    assert forall k :: k in c.programs ==> InUse(c, 0, k);
    assert forall k :: k in c.sessions ==> InUse(c, 1, k);
    assert forall k :: k in c.continuations ==> InUse(c, 2, k);
    assert forall k :: k in c.requests ==> InUse(c, 3, k);
    assert forall k :: k in c.attempts ==> InUse(c, 4, k);
    assert forall k :: k in c.phases ==> InUse(c, 5, k);
  }

  lemma LastSixOnce(c: Core)
    requires Identity(c)
    ensures forall k :: k in c.states ==> Only(c, k, 6)
    ensures forall k :: k in c.replicas ==> Only(c, k, 7)
    ensures forall k :: k in c.bindings ==> Only(c, k, 8)
    ensures forall k :: k in c.evidence ==> Only(c, k, 9)
    ensures forall k :: k in c.outputs ==> Only(c, k, 10)
    ensures forall k :: k in c.events ==> Only(c, k, 11)
  {
    hide Only, Identity;
    UsedOnce(c, 6); UsedOnce(c, 7); UsedOnce(c, 8); UsedOnce(c, 9); UsedOnce(c, 10); UsedOnce(c, 11);
    assert forall k :: k in c.states ==> InUse(c, 6, k);
    assert forall k :: k in c.replicas ==> InUse(c, 7, k);
    assert forall k :: k in c.bindings ==> InUse(c, 8, k);
    assert forall k :: k in c.evidence ==> InUse(c, 9, k);
    assert forall k :: k in c.outputs ==> InUse(c, 10, k);
    assert forall k :: k in c.events ==> InUse(c, 11, k);
  }

  lemma IdentityCheckHolds(c: Core)
    requires KeysMatch(c) && Identity(c)
    ensures GlobalIdentityUniqueness(c)
  {
    hide Only, Identity;
    FirstSixOnce(c);
    LastSixOnce(c);
  }

  lemma OnlyWhereInUse(c: Core, k: Id, i: int)
    requires Identity(c) && InUse(c, i, k)
    ensures Only(c, k, i)
  {
    assert forall j :: InUse(c, j, k) ==> i == j;
    assert !(InUse(c, 0, k) && i != 0) && !(InUse(c, 1, k) && i != 1) && !(InUse(c, 2, k) && i != 2) &&
           !(InUse(c, 3, k) && i != 3);
    assert !(InUse(c, 4, k) && i != 4) && !(InUse(c, 5, k) && i != 5) && !(InUse(c, 6, k) && i != 6) &&
           !(InUse(c, 7, k) && i != 7);
    assert !(InUse(c, 8, k) && i != 8) && !(InUse(c, 9, k) && i != 9) && !(InUse(c, 10, k) && i != 10) &&
           !(InUse(c, 11, k) && i != 11);
  }

  lemma ScopesHold(c: Core)
    requires WellFormed(c)
    ensures ParentScopes(c)
  {
    hide KeysMatch, StatesResolve, BindingsResolve, OutputsResolve;
  }

  /** The authority check is the only one that can fail, and it fails exactly with the fence. */
  lemma AuthorityCheckIffFenced(c: Core)
    requires RequestsKeyed(c.requests) && AttemptsKeyed(c.attempts)
    requires RequestsResolve(c.continuations.Keys, c.attempts.Keys, c.requests)
    requires RequestsStand(c.requests, c.attempts, c.outputs) && AttemptsStand(c.attempts, c.requests)
    ensures AttemptAuthorityCheck(c) <==> AttemptFenced(c.attempts, c.requests)
  {
    if AttemptAuthorityCheck(c) && "" in c.attempts && c.attempts[""].authorityStatus == Current {
      var r := c.attempts[""].requestId;
      assert AttemptStands(c.attempts[""], c.requests);
      assert RequestAuthority(c, c.requests[r], r);
      assert "" in WithAuthority(c.attempts, r, Current);
    }
    if AttemptFenced(c.attempts, c.requests) {
      forall r | r in c.requests ensures RequestAuthority(c, c.requests[r], r) {
        OneRequestAuthority(c, r);
      }
    }
  }

  lemma OneRequestAuthority(c: Core, r: Id)
    requires AttemptsKeyed(c.attempts) && AttemptsStand(c.attempts, c.requests) && AttemptFenced(c.attempts, c.requests)
    requires r in c.requests && c.requests[r].id == r && RequestStands(c.requests[r], c.attempts, c.outputs)
    ensures RequestAuthority(c, c.requests[r], r)
  {
    var q := c.requests[r];
    forall a | a in c.attempts && c.attempts[a].requestId == r
      ensures c.attempts[a].authorityStatus == Current ==> q.currentAttemptId == Some(a)
      ensures c.attempts[a].authorityStatus == Committed ==> q.committedAttemptId == Some(a)
    {
      assert AttemptStands(c.attempts[a], c.requests);
    }
    assert q.currentAttemptId.Some? ==> q.currentAttemptId.value in WithAuthority(c.attempts, r, Current);
    assert q.committedAttemptId.Some? ==> q.committedAttemptId.value in WithAuthority(c.attempts, r, Committed);
    assert WithAuthority(c.attempts, r, Current) == OptionSet(q.currentAttemptId);
    assert WithAuthority(c.attempts, r, Committed) == OptionSet(q.committedAttemptId);
  }

  lemma CommitCheckHolds(c: Core)
    requires RequestsStand(c.requests, c.attempts, c.outputs)
    ensures RequestCommitConsistency(c)
  {
    forall r | r in c.requests ensures CommitConsistent(c, c.requests[r]) {
      assert RequestStands(c.requests[r], c.attempts, c.outputs);
    }
  }

  lemma DagsHold(c: Core)
    requires !HasCycle(Parents(c.continuations))
    ensures ContinuationDags(c)
  {
    forall s | s in c.sessions ensures !HasCycle(SessionGraph(c.continuations, s)) {
      if HasCycle(SessionGraph(c.continuations, s)) {
        AcyclicMono(SessionGraph(c.continuations, s), Parents(c.continuations));
      }
    }
  }

  lemma ProvenanceHolds(c: Core)
    requires StatesResolve(c.continuations.Keys, c.requests.Keys, c.attempts.Keys, c.phases.Keys, c.states)
    requires StatesSound(c.continuations, c.requests, c.attempts, c.phases, c.states, c.replicas)
    requires RequestsKeyed(c.requests) && RequestsStand(c.requests, c.attempts, c.outputs)
    ensures StateProvenance(c)
  {
    hide Ancestor, HasCycle, Coherent, ReplicasStand;
    forall s | s in c.states ensures ProvenanceOf(c, c.states[s]) {
      OneProvenance(c, s);
    }
  }

  lemma OneProvenance(c: Core, s: Id)
    requires StatesResolve(c.continuations.Keys, c.requests.Keys, c.attempts.Keys, c.phases.Keys, c.states)
    requires OriginsStand(c.continuations, c.requests, c.attempts, c.phases, c.states)
    requires DependenciesStand(c.continuations, c.phases, c.states)
    requires RequestsKeyed(c.requests) && RequestsStand(c.requests, c.attempts, c.outputs) && s in c.states
    ensures ProvenanceOf(c, c.states[s])
  {
    hide Ancestor, Newest;
    var x := c.states[s];
    assert OriginStands(x, c.continuations, c.requests, c.attempts, c.phases);
    assert StateResolves(x, c.continuations.Keys, c.requests.Keys, c.attempts.Keys, c.phases.Keys, c.states.Keys);
    if x.originType == FromRequest {
      assert RequestStands(c.requests[x.originId], c.attempts, c.outputs);
    }
    forall d | d in x.derivedFrom ensures d in c.states && DependencyOf(c, x, c.states[d]) {
      assert DependencyStands(x, c.states[d], c.continuations, c.phases);
      assert StateResolves(c.states[d], c.continuations.Keys, c.requests.Keys, c.attempts.Keys, c.phases.Keys,
             c.states.Keys);
    }
  }

  lemma BindingCheckIffFenced(c: Core)
    requires BindingsKeyed(c.bindings) && BindingsSound(c.bindings, c.currentBinding, c.currentEpoch, c.lastAllocated)
    ensures BindingAuthority(c) <==> BindingFenced(c.bindings, c.currentBinding)
  {
    hide EpochsUnique, AllocatedStands;
    forall b | b in c.bindings && c.bindings[b].status == BindingActive
      ensures c.bindings[b].subjectId in c.currentBinding && (c.currentBinding[c.bindings[b].subjectId] == b || b == "")
    {
      assert BindingStands(c.bindings[b], c.currentBinding, c.currentEpoch, c.lastAllocated);
    }
    hide BindingsStand;
  }

  lemma BindingGenerationsHold(c: Core)
    requires BindingsSound(c.bindings, c.currentBinding, c.currentEpoch, c.lastAllocated)
    ensures BindingGenerations(c)
  {
    forall b | b in c.bindings
      ensures c.bindings[b].baseEpoch < c.bindings[b].epoch && SubjectEpochs(c, c.bindings[b].subjectId)
    {
      assert BindingStands(c.bindings[b], c.currentBinding, c.currentEpoch, c.lastAllocated);
      OneSubjectEpochs(c, c.bindings[b].subjectId);
    }
    hide CurrentStands, BindingsStand, AllocatedStands, SubjectEpochs;
  }

  lemma OneSubjectEpochs(c: Core, s: Id)
    requires CurrentStands(c.bindings, c.currentBinding, c.currentEpoch)
    requires BindingsStand(c.bindings, c.currentBinding, c.currentEpoch, c.lastAllocated)
    requires AllocatedStands(c.bindings, c.lastAllocated) && s in c.lastAllocated
    ensures SubjectEpochs(c, s)
  {
    forall b | b in c.bindings && c.bindings[b].subjectId == s ensures c.bindings[b].epoch <= c.lastAllocated[s] {
      assert BindingStands(c.bindings[b], c.currentBinding, c.currentEpoch, c.lastAllocated);
    }
    if s in c.currentEpoch {
      var b := c.currentBinding[s];
      assert b in c.bindings && c.bindings[b].subjectId == s && c.bindings[b].epoch == c.currentEpoch[s];
    }
  }

  lemma ValidityCheckHolds(c: Core, valid: SemanticValidity)
    requires RequestsResolve(c.continuations.Keys, c.attempts.Keys, c.requests)
    requires ContinuationsResolve(c.sessions.Keys, c.continuations)
    ensures StateValidityCheck(c, valid)
  {
    forall s, r | s in c.states && c.states[s].validity == StateInvalid && r in c.requests &&
        Truthy(c.requests[r].currentAttemptId)
      ensures !Compatible(c, s, RequestContext(c, r), valid)
    {
      ReachesRefl(Provenance(c.states), s);
      UnfitAncestorBlocks(c, s, s, RequestContext(c, r), valid);
    }
  }

  /** On sound cores thirteen checks always hold; the two authority checks hold exactly when the fence does. */
  lemma OracleIffFenced(c: Core, valid: SemanticValidity)
    requires Sound(c)
    ensures OracleAccepts(c, valid) <==> Fenced(c)
  {
    hide Identity, GlobalIdentityUniqueness, ParentScopes, AttemptAuthorityCheck, RequestCommitConsistency,
        ContinuationDags,
         StateProvenance, BindingAuthority, BindingGenerations, StateValidityCheck, AttemptFenced, BindingFenced,
         BindingsSound, StatesResolve, RequestsStand, AttemptsStand, CompletedGated, Contiguous, HasCycle, Ancestor,
         OriginsStand, DependenciesStand, Coherent, Supported;
    IdentityCheckHolds(c);
    ScopesHold(c);
    AuthorityCheckIffFenced(c);
    CommitCheckHolds(c);
    DagsHold(c);
    ProvenanceHolds(c);
    BindingCheckIffFenced(c);
    BindingGenerationsHold(c);
    ValidityCheckHolds(c, valid);
  }

  /**
   The main theorem. A run of any calls from the empty core, rejected ones included, ends in a core
   the oracle accepts if and only if no accepted call of the run started an attempt on a request
   whose current attempt is called "" or committed a migration for a subject whose current binding
   is called "".
   */
  lemma OracleAcceptsRunIffNeverSlips(ops: seq<Op>, valid: SemanticValidity)
    ensures OracleAccepts(Run(EmptyCore, ops), valid) <==> NeverSlips(EmptyCore, ops)
  {
    hide OracleAccepts, NeverSlips, Sound, Fenced;
    EmptyIsSound();
    RunKeepsSound(EmptyCore, ops);
    RunKeepsFence(EmptyCore, ops);
    OracleIffFenced(Run(EmptyCore, ops), valid);
  }

  ghost predicate Named(op: Op) {
    (op.StartAttempt? || op.ProposeBinding? || op.ActivateInitialBinding?) ==> op.id != ""
  }

  ghost predicate NothingUnnamed(c: Core) {
    "" !in c.attempts && "" !in c.bindings
  }

  lemma NamedStep(c: Core, op: Op)
    requires NothingUnnamed(c) && Named(op)
    ensures NothingUnnamed(Step(c, op))
  {
    hide FinalizeFaults, CommitFaults, CreateStateFaults, ContinuationFaults, EvidenceFaults, Refreshed,
        ResolveOrigin, Supported;
    if Accepted(c, op) {
      hide NothingUnnamed, Named, StructureFaults, WorkFaults, StateFaults, RecordFaults, StructureEffect, WorkEffect,
          StateEffect, RecordEffect;
      if StructureOp(op) { NamedStructureStep(c, op); }
      else if WorkOp(op) { NamedWorkStep(c, op); }
      else if StateOp(op) { NamedStateStep(c, op); }
      else { NamedRecordStep(c, op); }
    }
  }

  lemma NamedStructureStep(c: Core, op: Op)
    requires NothingUnnamed(c) && StructureOp(op) && StructureFaults(c, op) == {}
    ensures NothingUnnamed(StructureEffect(c, op))
  {
    hide ContinuationFaults, Refreshed;
  }

  lemma NamedStateStep(c: Core, op: Op)
    requires NothingUnnamed(c) && StateOp(op) && StateFaults(c, op) == {}
    ensures NothingUnnamed(StateEffect(c, op))
  {
    hide CreateStateFaults, Refreshed, ResolveOrigin;
  }

  lemma NamedWorkStep(c: Core, op: Op)
    requires NothingUnnamed(c) && Named(op) && WorkOp(op) && WorkFaults(c, op) == {}
    ensures NothingUnnamed(WorkEffect(c, op))
  {
    hide Sufficient, Offered;
  }

  lemma NamedRecordStep(c: Core, op: Op)
    requires NothingUnnamed(c) && Named(op) && RecordOp(op) && RecordFaults(c, op) == {}
    ensures NothingUnnamed(RecordEffect(c, op))
  {
    hide Sufficient, Offered, Supported;
  }

  lemma {:induction false} NamedRun(ops: seq<Op>)
    requires forall i :: 0 <= i < |ops| ==> Named(ops[i])
    ensures NothingUnnamed(Run(EmptyCore, ops))
  {
    hide Step, Named, NothingUnnamed;
    if ops == [] {
      assert NothingUnnamed(EmptyCore) by { EmptyIsNamed(); }
    } else {
      NamedRun(ops[..|ops| - 1]);
      NamedStep(Run(EmptyCore, ops[..|ops| - 1]), ops[|ops| - 1]);
    }
  }

  lemma EmptyIsNamed()
    ensures NothingUnnamed(EmptyCore)
  {
  }

  /** In particular a run that calls no attempt and no binding "" always satisfies the oracle. */
  lemma NamedRunsSatisfyOracle(ops: seq<Op>, valid: SemanticValidity)
    requires forall i :: 0 <= i < |ops| ==> Named(ops[i])
    ensures OracleAccepts(Run(EmptyCore, ops), valid)
  {
    hide Sound, OracleAccepts, Named, Run;
    NamedRun(ops);
    EmptyIsSound();
    RunKeepsSound(EmptyCore, ops);
    OracleIffFenced(Run(EmptyCore, ops), valid);
  }
}
