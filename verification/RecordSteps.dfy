/** Bindings, evidence and events: each operation keeps `Sound`. */
module RecordSteps {
  import opened Entities
  import opened EvidenceGate
  import opened CoreSpec
  import opened Invariant
  import opened RunInvariant
  import opened Evolution

  // ---------- proposing and activating ----------

  /** A new candidate is numbered past every epoch of its subject. */
  lemma ProposalIsNewest(c: Core, subject: Id)
    requires BindingsSound(c.bindings, c.currentBinding, c.currentEpoch, c.lastAllocated)
    ensures var base := EpochOf(c.currentEpoch, subject, 0); var epoch := EpochOf(c.lastAllocated, subject, base) + 1;
            && 0 <= base < epoch
            && forall b :: b in c.bindings && c.bindings[b].subjectId == subject ==> c.bindings[b].epoch < epoch
  {
    if subject in c.currentEpoch {
      var current := c.currentBinding[subject];
      assert BindingStands(c.bindings[current], c.currentBinding, c.currentEpoch, c.lastAllocated);
    }
    if subject in c.lastAllocated {
      var top :| top in c.bindings && c.bindings[top].subjectId == subject &&
          c.bindings[top].epoch == c.lastAllocated[subject];
      assert BindingStands(c.bindings[top], c.currentBinding, c.currentEpoch, c.lastAllocated);
    }
    forall b | b in c.bindings && c.bindings[b].subjectId == subject
      ensures c.bindings[b].epoch < EpochOf(c.lastAllocated, subject, EpochOf(c.currentEpoch, subject, 0)) + 1
    {
      assert BindingStands(c.bindings[b], c.currentBinding, c.currentEpoch, c.lastAllocated);
    }
  }

  lemma AllocationMoves(c: Core, b: Binding)
    requires b.id !in c.bindings && AllocatedStands(c.bindings, c.lastAllocated)
    ensures AllocatedStands(c.bindings[b.id := b], c.lastAllocated[b.subjectId := b.epoch])
  {
    var bindings', last' := c.bindings[b.id := b], c.lastAllocated[b.subjectId := b.epoch];
    forall s | s in last'
      ensures exists x :: x in bindings' && bindings'[x].subjectId == s && bindings'[x].epoch == last'[s]
    {
      if s == b.subjectId {
        assert bindings'[b.id] == b;
      } else {
        var x :| x in c.bindings && c.bindings[x].subjectId == s && c.bindings[x].epoch == c.lastAllocated[s];
        assert bindings'[x] == c.bindings[x];
      }
    }
  }

  lemma GainKeepsEpochs(bindings: map<Id, Binding>, b: Binding)
    requires EpochsUnique(bindings) && b.id !in bindings
    requires forall x :: x in bindings && bindings[x].subjectId == b.subjectId ==>
               bindings[x].epoch < b.epoch && (Activated(b) ==> !Activated(bindings[x]))
    ensures EpochsUnique(bindings[b.id := b])
  {
  }

  lemma GainKeepsCurrent(bindings: map<Id, Binding>, b: Binding, currentBinding: map<Id, Id>, currentEpoch: map<Id,
      int>)
    requires CurrentStands(bindings, currentBinding, currentEpoch) && b.id !in bindings
    ensures CurrentStands(bindings[b.id := b], currentBinding, currentEpoch)
  {
  }

  lemma ProposeKeepsStanding(c: Core, b: Binding)
    requires BindingsStand(c.bindings, c.currentBinding, c.currentEpoch, c.lastAllocated)
    requires b.id !in c.bindings && b == NewBinding(c, b.id, b.subjectId, b.locationId, Proposed)
    requires 0 <= b.baseEpoch < b.epoch && (b.subjectId in c.lastAllocated ==> c.lastAllocated[b.subjectId] < b.epoch)
    ensures var c' := AfterPropose(c, b); BindingsStand(c'.bindings, c'.currentBinding, c'.currentEpoch,
            c'.lastAllocated)
  {
    var c' := AfterPropose(c, b);
    forall x | x in c'.bindings
      ensures BindingStands(c'.bindings[x], c'.currentBinding, c'.currentEpoch, c'.lastAllocated)
    {
    }
  }

  lemma ProposeKeepsBindings(c: Core, b: Binding)
    requires BindingsSound(c.bindings, c.currentBinding, c.currentEpoch, c.lastAllocated)
    requires b.id !in c.bindings && b == NewBinding(c, b.id, b.subjectId, b.locationId, Proposed)
    ensures var c' := AfterPropose(c, b); BindingsSound(c'.bindings, c'.currentBinding, c'.currentEpoch,
            c'.lastAllocated)
  {
    ProposalIsNewest(c, b.subjectId);
    hide BindingsStand, EpochsUnique, CurrentStands, AllocatedStands;
    AllocationMoves(c, b);
    ProposeKeepsStanding(c, b);
    GainKeepsEpochs(c.bindings, b);
    GainKeepsCurrent(c.bindings, b, c.currentBinding, c.currentEpoch);
  }

  lemma ActivateKeepsStanding(c: Core, id: Id, subject: Id, location: string)
    requires BindingsStand(c.bindings, c.currentBinding, c.currentEpoch, c.lastAllocated)
    requires id !in c.bindings && subject !in c.currentBinding && subject !in c.currentEpoch
    requires subject in c.lastAllocated ==> 0 <= c.lastAllocated[subject]
    ensures var c' := AfterActivate(c, id, subject, location);
            BindingsStand(c'.bindings, c'.currentBinding, c'.currentEpoch, c'.lastAllocated)
    ensures forall x :: x in c.bindings && c.bindings[x].subjectId == subject ==> !Activated(c.bindings[x])
  {
    var c' := AfterActivate(c, id, subject, location);
    forall x | x in c'.bindings
      ensures BindingStands(c'.bindings[x], c'.currentBinding, c'.currentEpoch, c'.lastAllocated)
    {
      if x != id {
        assert BindingStands(c.bindings[x], c.currentBinding, c.currentEpoch, c.lastAllocated);
      }
    }
  }

  lemma ActivateKeepsCurrent(c: Core, id: Id, subject: Id, location: string)
    requires CurrentStands(c.bindings, c.currentBinding, c.currentEpoch)
    requires id !in c.bindings && subject !in c.currentBinding
    ensures var c' := AfterActivate(c, id, subject, location); CurrentStands(c'.bindings, c'.currentBinding,
            c'.currentEpoch)
  {
  }

  lemma ActivateKeepsBindings(c: Core, id: Id, subject: Id, location: string)
    requires BindingsSound(c.bindings, c.currentBinding, c.currentEpoch, c.lastAllocated)
    requires id !in c.bindings && subject !in c.currentBinding
    ensures var c' := AfterActivate(c, id, subject, location);
            BindingsSound(c'.bindings, c'.currentBinding, c'.currentEpoch, c'.lastAllocated)
  {
    var b := NewBinding(c, id, subject, location, BindingActive);
    ProposalIsNewest(c, subject);
    assert subject !in c.currentEpoch;
    hide BindingsStand, EpochsUnique, CurrentStands, AllocatedStands;
    AllocationMoves(c, b);
    ActivateKeepsStanding(c, id, subject, location);
    ActivateKeepsCurrent(c, id, subject, location);
    GainKeepsEpochs(c.bindings, b);
  }

  // ---------- beginning and committing ----------

  lemma RestatusKeepsAllocation(bindings: map<Id, Binding>, bindings': map<Id, Binding>, last: map<Id, int>)
    requires AllocatedStands(bindings, last) && bindings.Keys <= bindings'.Keys
    requires forall b :: b in bindings ==> bindings'[b] == bindings[b].(status := bindings'[b].status)
    ensures AllocatedStands(bindings', last)
  {
    forall s | s in last
      ensures exists x :: x in bindings' && bindings'[x].subjectId == s && bindings'[x].epoch == last[s]
    {
      var x :| x in bindings && bindings[x].subjectId == s && bindings[x].epoch == last[s];
      assert x in bindings';
    }
  }

  /** A candidate that starts migrating stays a candidate. */
  lemma MigratingKeepsEpochs(bindings: map<Id, Binding>, b: Id)
    requires EpochsUnique(bindings) && b in bindings
    ensures EpochsUnique(bindings[b := bindings[b].(status := Migrating)])
  {
  }

  lemma MigratingKeepsCurrent(bindings: map<Id, Binding>, b: Id, currentBinding: map<Id, Id>, currentEpoch: map<Id,
      int>)
    requires CurrentStands(bindings, currentBinding, currentEpoch) && b in bindings && bindings[b].status == Proposed
    ensures CurrentStands(bindings[b := bindings[b].(status := Migrating)], currentBinding, currentEpoch)
  {
  }

  lemma MigratingKeepsStanding(bindings: map<Id, Binding>, b: Id, currentBinding: map<Id, Id>, currentEpoch: map<Id,
      int>, lastAllocated: map<Id, int>)
    requires BindingsStand(bindings, currentBinding, currentEpoch, lastAllocated) && b in bindings
    ensures BindingsStand(bindings[b := bindings[b].(status := Migrating)], currentBinding, currentEpoch, lastAllocated)
  {
    var bindings' := bindings[b := bindings[b].(status := Migrating)];
    forall x | x in bindings' ensures BindingStands(bindings'[x], currentBinding, currentEpoch, lastAllocated) {
      assert BindingStands(bindings[x], currentBinding, currentEpoch, lastAllocated);
    }
  }

  lemma BeginKeepsBindings(c: Core, b: Id)
    requires BindingsSound(c.bindings, c.currentBinding, c.currentEpoch, c.lastAllocated) && BeginFaults(c, b) == {}
    ensures var c' := AfterBegin(c, b); BindingsSound(c'.bindings, c'.currentBinding, c'.currentEpoch, c'.lastAllocated)
  {
    hide AllocatedStands, EpochsUnique, CurrentStands, BindingsStand;
    RestatusKeepsAllocation(c.bindings, AfterBegin(c, b).bindings, c.lastAllocated);
    MigratingKeepsEpochs(c.bindings, b);
    MigratingKeepsCurrent(c.bindings, b, c.currentBinding, c.currentEpoch);
    MigratingKeepsStanding(c.bindings, b, c.currentBinding, c.currentEpoch, c.lastAllocated);
  }

  /** The guards of a commit that matter to the bindings themselves. */
  ghost predicate Committable(c: Core, b: Id) {
    && b in c.bindings && (c.bindings[b].status == Proposed || c.bindings[b].status == Migrating)
    && c.bindings[b].baseEpoch == EpochOf(c.currentEpoch, c.bindings[b].subjectId, 0)
  }

  /** A commit changes two statuses and raises the epoch of one subject. */
  lemma CommitMoves(c: Core, b: Id)
    requires CurrentStands(c.bindings, c.currentBinding, c.currentEpoch) && Committable(c, b)
    requires c.bindings[b].baseEpoch < c.bindings[b].epoch
    ensures var c' := AfterCommit(c, b);
            && c'.bindings.Keys == c.bindings.Keys
            && (forall x :: x in c.bindings ==> c'.bindings[x] == c.bindings[x].(status := c'.bindings[x].status))
            && (forall x :: x in c.bindings && x != b && Some(x) != Displaced(c, c.bindings[b].subjectId) ==>
               c'.bindings[x] == c.bindings[x])
            && EpochOf(c.currentEpoch, c.bindings[b].subjectId, 0) < c'.currentEpoch[c.bindings[b].subjectId]
            && Displaced(c, c.bindings[b].subjectId) != Some(b)
            && (Displaced(c, c.bindings[b].subjectId).Some? ==>
                  Activated(c.bindings[Displaced(c, c.bindings[b].subjectId).value])
                  && c.bindings[Displaced(c, c.bindings[b].subjectId).value].subjectId == c.bindings[b].subjectId
                  && c'.bindings[Displaced(c, c.bindings[b].subjectId).value].status == BindingSuperseded)
            && c'.bindings[b].status == BindingActive
  {
  }

  lemma CommitKeepsEpochs(c: Core, b: Id)
    requires CurrentStands(c.bindings, c.currentBinding, c.currentEpoch) && Committable(c, b)
    requires BindingsStand(c.bindings, c.currentBinding, c.currentEpoch, c.lastAllocated) && EpochsUnique(c.bindings)
    ensures EpochsUnique(AfterCommit(c, b).bindings)
  {
    var c' := AfterCommit(c, b);
    assert BindingStands(c.bindings[b], c.currentBinding, c.currentEpoch, c.lastAllocated);
    CommitMoves(c, b);
    hide AfterCommit, CurrentStands, Displaced;
    forall x, y | x in c'.bindings && y in c'.bindings && x != y && c'.bindings[x].subjectId == c'.bindings[y].subjectId
      ensures c'.bindings[x].epoch != c'.bindings[y].epoch
      ensures Activated(c'.bindings[x]) && Activated(c'.bindings[y]) ==>
              c'.bindings[x].baseEpoch != c'.bindings[y].baseEpoch
    {
      assert BindingStands(c.bindings[x], c.currentBinding, c.currentEpoch, c.lastAllocated);
      assert BindingStands(c.bindings[y], c.currentBinding, c.currentEpoch, c.lastAllocated);
    }
  }

  lemma CommitKeepsStanding(c: Core, b: Id)
    requires BindingsKeyed(c.bindings) && CurrentStands(c.bindings, c.currentBinding, c.currentEpoch)
    requires Committable(c, b)
    requires BindingsStand(c.bindings, c.currentBinding, c.currentEpoch, c.lastAllocated)
    ensures var c' := AfterCommit(c, b); BindingsStand(c'.bindings, c'.currentBinding, c'.currentEpoch,
            c'.lastAllocated)
  {
    var c' := AfterCommit(c, b);
    assert BindingStands(c.bindings[b], c.currentBinding, c.currentEpoch, c.lastAllocated);
    CommitMoves(c, b);
    forall x | x in c'.bindings
      ensures BindingStands(c'.bindings[x], c'.currentBinding, c'.currentEpoch, c'.lastAllocated)
    {
      assert BindingStands(c.bindings[x], c.currentBinding, c.currentEpoch, c.lastAllocated);
      CommitKeepsOne(c, b, x);
    }
    hide AfterCommit;
  }

  lemma CommitKeepsOne(c: Core, b: Id, x: Id)
    requires BindingsKeyed(c.bindings) && CurrentStands(c.bindings, c.currentBinding, c.currentEpoch)
    requires Committable(c, b) && x in c.bindings
    requires BindingStands(c.bindings[x], c.currentBinding, c.currentEpoch, c.lastAllocated)
    requires BindingStands(c.bindings[b], c.currentBinding, c.currentEpoch, c.lastAllocated)
    ensures var c' := AfterCommit(c, b);
            x in c'.bindings && BindingStands(c'.bindings[x], c'.currentBinding, c'.currentEpoch, c'.lastAllocated)
  {
  }

  lemma CommitKeepsCurrent(c: Core, b: Id)
    requires CurrentStands(c.bindings, c.currentBinding, c.currentEpoch) && Committable(c, b)
    ensures var c' := AfterCommit(c, b); CurrentStands(c'.bindings, c'.currentBinding, c'.currentEpoch)
  {
  }

  lemma CommitKeepsBindings(c: Core, b: Id)
    requires BindingsKeyed(c.bindings) && BindingsSound(c.bindings, c.currentBinding, c.currentEpoch, c.lastAllocated)
    requires Committable(c, b)
    ensures var c' := AfterCommit(c, b); BindingsSound(c'.bindings, c'.currentBinding, c'.currentEpoch,
            c'.lastAllocated)
    ensures AfterCommit(c, b).bindings.Keys == c.bindings.Keys
  {
    assert BindingStands(c.bindings[b], c.currentBinding, c.currentEpoch, c.lastAllocated);
    hide EpochsUnique, BindingsStand, AllocatedStands, CurrentStands, BindingsKeyed;
    CommitMoves(c, b);
    CommitKeepsEpochs(c, b);
    CommitKeepsStanding(c, b);
    CommitKeepsCurrent(c, b);
    RestatusKeepsAllocation(c.bindings, AfterCommit(c, b).bindings, c.lastAllocated);
  }

  // ---------- the four operations ----------

  lemma ProposeKeepsSound(c: Core, id: Id, subject: Id, location: string)
    requires Sound(c) && !Taken(c, id)
    ensures Sound(AfterPropose(c, NewBinding(c, id, subject, location, Proposed)))
  {
    hide Identity, WorkSound, StatesSound, BindingsSound, EvidenceStands, EventsStand, WellFormed;
    var b := NewBinding(c, id, subject, location, Proposed);
    ProposeKeepsWellFormed(c, b);
    ProposeKeepsBindings(c, b);
    GainKeepsIdentity(c, AfterPropose(c, b), 8, id);
  }

  lemma ActivateKeepsSound(c: Core, id: Id, subject: Id, location: string)
    requires Sound(c) && !Taken(c, id) && subject !in c.currentBinding
    ensures Sound(AfterActivate(c, id, subject, location))
  {
    hide Identity, WorkSound, StatesSound, BindingsSound, EvidenceStands, EventsStand, WellFormed;
    ActivateKeepsWellFormed(c, id, subject, location);
    ActivateKeepsBindings(c, id, subject, location);
    GainKeepsIdentity(c, AfterActivate(c, id, subject, location), 8, id);
  }

  lemma BeginKeepsSound(c: Core, b: Id)
    requires Sound(c) && BeginFaults(c, b) == {}
    ensures Sound(AfterBegin(c, b))
  {
    hide Identity, WorkSound, StatesSound, BindingsSound, EvidenceStands, EventsStand, WellFormed;
    BeginKeepsWellFormed(c, b);
    BeginKeepsBindings(c, b);
    SameKeepsIdentity(c, AfterBegin(c, b));
  }

  lemma CommitKeepsSound(c: Core, b: Id)
    requires Sound(c) && Committable(c, b)
    ensures Sound(AfterCommit(c, b))
  {
    hide Identity, WorkSound, StatesSound, BindingsSound, EvidenceStands, EventsStand;
    CommitKeepsBindings(c, b);
    hide WellFormed;
    SameKeepsIdentity(c, AfterCommit(c, b));
  }

  // ---------- evidence ----------

  lemma OfferedOutlives(evidence: map<Id, Evidence>, evidence': map<Id, Evidence>, ids: set<Id>)
    requires ids <= evidence.Keys && evidence.Keys <= evidence'.Keys && forall e :: e in evidence ==>
             evidence'[e] == evidence[e]
    ensures Offered(evidence', ids) == Offered(evidence, ids)
  {
  }

  lemma SupportOutlives(evidence: map<Id, Evidence>, evidence': map<Id, Evidence>, e: Evidence)
    requires Supported(evidence, e) && evidence.Keys <= evidence'.Keys && forall x :: x in evidence ==>
             evidence'[x] == evidence[x]
    ensures Supported(evidence', e)
  {
    forall s | s in e.derivedFrom ensures s in evidence' && evidence'[s] == evidence[s] {
    }
    assert SupportScope(evidence', e.derivedFrom) == SupportScope(evidence, e.derivedFrom);
  }

  lemma EvidenceKeepsWork(c: Core, e: Evidence)
    requires WorkSound(c.requests, c.attempts, c.phases, c.outputs, c.evidence) && e.id !in c.evidence
    ensures WorkSound(c.requests, c.attempts, c.phases, c.outputs, c.evidence[e.id := e])
  {
    hide NumbersStand, RequestsStand, AttemptsStand, Sufficient, Offered;
    var evidence' := c.evidence[e.id := e];
    forall r | r in c.requests && c.requests[r].status == RequestCompleted && c.requests[r].authoritativeOutputId.Some?
      ensures c.requests[r].authoritativeOutputId.value in c.outputs
      ensures PassedGate(c.outputs[c.requests[r].authoritativeOutputId.value], evidence')
    {
      var o := c.outputs[c.requests[r].authoritativeOutputId.value];
      assert PassedGate(o, c.evidence);
      OfferedOutlives(c.evidence, evidence', o.evidenceIds);
    }
  }

  lemma RecordEvidenceKeepsSound(c: Core, e: Evidence)
    requires Sound(c) && EvidenceFaults(c, e) == {} && e.id !in c.evidence
    ensures Sound(AfterRecordEvidence(c, e))
  {
    hide Identity, WorkSound, StatesSound, BindingsSound, EventsStand, WellFormed, Supported;
    RecordEvidenceKeepsWellFormed(c, e);
    EvidenceKeepsWork(c, e);
    GainKeepsIdentity(c, AfterRecordEvidence(c, e), 9, e.id);
    var evidence' := AfterRecordEvidence(c, e).evidence;
    forall x | x in evidence' ensures Supported(evidence', evidence'[x]) {
      SupportOutlives(c.evidence, evidence', evidence'[x]);
    }
  }

  lemma RecordEventKeepsSound(c: Core, e: SemanticEvent)
    requires Sound(c) && !Taken(c, e.id)
    ensures Sound(AfterRecordEvent(c, e))
  {
    hide Identity, WorkSound, StatesSound, BindingsSound, EvidenceStands, WellFormed;
    RecordEventKeepsWellFormed(c, e);
    GainKeepsIdentity(c, AfterRecordEvent(c, e), 11, e.id);
  }
}
