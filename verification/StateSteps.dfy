/** Programs, continuations, States and replicas: each operation keeps `Sound`, and no cycle check ever fires. */
module StateSteps {
  import opened Entities
  import opened CoreSpec
  import opened Graphs
  import opened Invariant
  import opened RunInvariant
  import opened Evolution

  // ---------- relabelling ----------

  /** Only cached lifecycles and validities differ. */
  ghost predicate Relabelled(states: map<Id, ReusableState>, states': map<Id, ReusableState>) {
    && states'.Keys == states.Keys
    && forall s :: s in states ==>
         states'[s] == states[s].(lifecycle := states'[s].lifecycle, validity := states'[s].validity)
  }

  lemma RefreshRelabels(cs: map<Id, Continuation>, states: map<Id, ReusableState>)
    ensures Relabelled(states, Refreshed(cs, states)) && Coherent(cs, Refreshed(cs, states))
  {
    hide DerivedLifecycle;
  }

  lemma RelabelKeepsProvenance(states: map<Id, ReusableState>, states': map<Id, ReusableState>)
    requires Relabelled(states, states')
    ensures Provenance(states') == Provenance(states)
  {
  }

  lemma RelabelKeepsOrigins(cs: map<Id, Continuation>, c: Core, states': map<Id, ReusableState>)
    requires OriginsStand(cs, c.requests, c.attempts, c.phases, c.states) && Relabelled(c.states, states')
    ensures OriginsStand(cs, c.requests, c.attempts, c.phases, states')
  {
    forall s | s in states' ensures OriginStands(states'[s], cs, c.requests, c.attempts, c.phases) {
      assert OriginStands(c.states[s], cs, c.requests, c.attempts, c.phases);
    }
  }

  lemma RelabelKeepsDependencies(cs: map<Id, Continuation>, phases: map<Id, Phase>, states: map<Id, ReusableState>,
      states': map<Id, ReusableState>)
    requires DependenciesStand(cs, phases, states) && Relabelled(states, states')
    ensures DependenciesStand(cs, phases, states')
  {
    hide Ancestor;
    forall s, d | s in states' && d in states'[s].derivedFrom
      ensures d in states' && DependencyStands(states'[s], states'[d], cs, phases)
    {
      assert DependencyStands(states[s], states[d], cs, phases);
    }
  }

  /** Relabelled States over an unchanged parent graph. */
  lemma RelabelKeepsStates(c: Core, cs: map<Id, Continuation>, states': map<Id, ReusableState>)
    requires StatesSound(c.continuations, c.requests, c.attempts, c.phases, c.states, c.replicas)
    requires Relabelled(c.states, states') && Coherent(cs, states') && !HasCycle(Parents(cs))
    requires OriginsStand(cs, c.requests, c.attempts, c.phases, c.states) && DependenciesStand(cs, c.phases, c.states)
    ensures StatesSound(cs, c.requests, c.attempts, c.phases, states', c.replicas)
  {
    RelabelKeepsProvenance(c.states, states');
    RelabelKeepsOrigins(cs, c, states');
    RelabelKeepsDependencies(cs, c.phases, c.states, states');
    assert states'.Keys == c.states.Keys;
    hide OriginsStand, DependenciesStand, Coherent, HasCycle, ReplicasStand, Relabelled;
  }

  // ---------- continuations ----------

  /** Old continuations keep their ancestry. */
  ghost predicate AncestryKept(cs: map<Id, Continuation>, cs': map<Id, Continuation>) {
    && cs.Keys <= cs'.Keys
    && forall a, d :: d in cs ==> (Ancestor(cs', a, d) <==> Ancestor(cs, a, d))
  }

  lemma AncestryKeepsOrigins(c: Core, cs': map<Id, Continuation>)
    requires OriginsStand(c.continuations, c.requests, c.attempts, c.phases, c.states)
    requires c.continuations.Keys <= cs'.Keys
    ensures OriginsStand(cs', c.requests, c.attempts, c.phases, c.states)
  {
    forall s | s in c.states ensures OriginStands(c.states[s], cs', c.requests, c.attempts, c.phases) {
      assert OriginStands(c.states[s], c.continuations, c.requests, c.attempts, c.phases);
    }
  }

  lemma AncestryKeepsDependencies(c: Core, cs': map<Id, Continuation>)
    requires DependenciesStand(c.continuations, c.phases, c.states) && AncestryKept(c.continuations, cs')
    requires StatesResolve(c.continuations.Keys, c.requests.Keys, c.attempts.Keys, c.phases.Keys, c.states)
    ensures DependenciesStand(cs', c.phases, c.states)
  {
    hide Ancestor, PhaseTooLate;
    forall s, d | s in c.states && d in c.states[s].derivedFrom
      ensures d in c.states && DependencyStands(c.states[s], c.states[d], cs', c.phases)
    {
      assert DependencyStands(c.states[s], c.states[d], c.continuations, c.phases);
      assert StateResolves(c.states[s], c.continuations.Keys, c.requests.Keys, c.attempts.Keys, c.phases.Keys,
             c.states.Keys);
    }
  }

  lemma NewContinuationsKeepStates(c: Core, cs': map<Id, Continuation>)
    requires WellFormed(c) && StatesSound(c.continuations, c.requests, c.attempts, c.phases, c.states, c.replicas)
    requires AncestryKept(c.continuations, cs') && !HasCycle(Parents(cs'))
    ensures StatesSound(cs', c.requests, c.attempts, c.phases, Refreshed(cs', c.states), c.replicas)
  {
    AncestryKeepsOrigins(c, cs');
    AncestryKeepsDependencies(c, cs');
    RefreshRelabels(cs', c.states);
    hide WellFormed, AncestryKept, Refreshed, OriginsStand, DependenciesStand, HasCycle, Coherent, Relabelled;
    RelabelKeepsStates(c, cs', Refreshed(cs', c.states));
  }

  /** A continuation under existing parents neither closes a cycle nor changes anyone's ancestry. */
  lemma NewContinuationExtends(cs: map<Id, Continuation>, k: Continuation)
    requires Closed(Parents(cs)) && !HasCycle(Parents(cs)) && k.id !in cs && k.parentIds <= cs.Keys
    ensures !HasCycle(Parents(cs[k.id := k])) && AncestryKept(cs, cs[k.id := k]) && Closed(Parents(cs[k.id := k]))
  {
    var g := Parents(cs);
    assert Parents(cs[k.id := k]) == g[k.id := k.parentIds];
    ExtensionStaysAcyclic(g, k.id, k.parentIds);
    forall a, d | d in cs ensures Ancestor(cs[k.id := k], a, d) <==> Ancestor(cs, a, d) {
      ReachesOldInExtension(g, k.id, k.parentIds, d, a);
    }
  }

  lemma RelabelContinuation(cs: map<Id, Continuation>, k: Id, life: ContinuationLifecycle)
    requires k in cs
    ensures Parents(cs[k := cs[k].(lifecycle := life)]) == Parents(cs)
    ensures AncestryKept(cs, cs[k := cs[k].(lifecycle := life)])
  {
    assert Parents(cs[k := cs[k].(lifecycle := life)]) == Parents(cs);
  }

  lemma CreateContinuationKeepsSound(c: Core, id: Id, session: Id, parents: set<Id>, life: ContinuationLifecycle)
    requires Sound(c) && ContinuationFaults(c, id, session, parents, life) == {}
    ensures Sound(AfterCreateContinuation(c, id, session, parents, life))
  {
    hide WellFormed, Identity, WorkSound, BindingsSound, EvidenceStands, EventsStand, AncestryKept, HasCycle, Closed,
        Taken;
    CreateContinuationKeepsWellFormed(c, id, session, parents, life);
    AcceptedParents(c, id, session, parents, life);
    WellFormedGraphsClosed(c);
    FreshContinuation(c, id, session, parents, life);
    var k := Continuation(id, session, parents, life);
    NewContinuationExtends(c.continuations, k);
    GainContinuationKeepsIdentity(c, id, c.continuations[id := k]);
    hide StatesSound;
    NewContinuationsKeepStates(c, c.continuations[id := k]);
  }

  lemma FreshContinuation(c: Core, id: Id, session: Id, parents: set<Id>, life: ContinuationLifecycle)
    requires ContinuationFaults(c, id, session, parents, life) == {}
    ensures !Taken(c, id) && id !in c.continuations
  {
  }

  lemma GainContinuationKeepsIdentity(c: Core, id: Id, cs': map<Id, Continuation>)
    requires Identity(c) && !Taken(c, id) && cs'.Keys == c.continuations.Keys + {id}
    ensures Identity(WithContinuations(c, cs'))
  {
    hide Identity;
    GainKeepsIdentity(c, WithContinuations(c, cs'), 2, id);
  }

  lemma SetLifecycleKeepsSound(c: Core, k: Id, life: ContinuationLifecycle)
    requires Sound(c) && k in c.continuations
    ensures Sound(AfterSetLifecycle(c, k, life))
  {
    SetLifecycleKeepsWellFormed(c, k, life);
    SetLifecycleKeepsIdentity(c, k, life);
    RelabelContinuation(c.continuations, k, life);
    hide WellFormed, Identity, WorkSound, BindingsSound, EvidenceStands, EventsStand, AncestryKept, HasCycle;
    assert !HasCycle(Parents(c.continuations));
    hide StatesSound;
    NewContinuationsKeepStates(c, c.continuations[k := c.continuations[k].(lifecycle := life)]);
  }

  lemma SetLifecycleKeepsIdentity(c: Core, k: Id, life: ContinuationLifecycle)
    requires Identity(c) && k in c.continuations
    ensures Identity(AfterSetLifecycle(c, k, life))
  {
    hide Identity;
    SameKeepsIdentity(c, AfterSetLifecycle(c, k, life));
  }

  lemma ResumeKeepsSound(c: Core, w: Id, child: Id)
    requires Sound(c) && ResumeFaults(c, w, child) == {}
    ensures Sound(AfterResume(c, w, child))
  {
    ResumeKeepsWellFormed(c, w, child);
    ResumeExtends(c, w, child);
    GainContinuationKeepsIdentity(c, child, AfterResume(c, w, child).continuations);
    hide WellFormed, Identity, WorkSound, BindingsSound, EvidenceStands, EventsStand, AncestryKept, HasCycle,
        StatesSound;
    NewContinuationsKeepStates(c, AfterResume(c, w, child).continuations);
  }

  lemma ResumeExtends(c: Core, w: Id, child: Id)
    requires WellFormed(c) && !HasCycle(Parents(c.continuations)) && w in c.continuations && child !in c.continuations
    ensures var cs' := AfterResume(c, w, child).continuations;
            AncestryKept(c.continuations, cs') && !HasCycle(Parents(cs')) && cs'.Keys == c.continuations.Keys + {child}
  {
    WellFormedGraphsClosed(c);
    hide WellFormed;
    var cs := c.continuations;
    var k := Continuation(child, cs[w].sessionId, {w}, LifeActive);
    NewContinuationExtends(cs, k);
    RelabelContinuation(cs[child := k], w, LifeTerminal);
    assert cs[child := k][w] == cs[w];
  }

  // ---------- States ----------

  /** The new State, before the refresh, resolves to its declared origin. */
  lemma NewStateHasOrigin(c: Core, op: Op)
    requires WellFormed(c) && OriginsStand(c.continuations, c.requests, c.attempts, c.phases, c.states)
    requires op.CreateState? && OriginOf(c, op).Ok?
    ensures OriginsStand(c.continuations, c.requests, c.attempts, c.phases,
            c.states[op.id := NewState(OriginOf(c, op).value, op)])
  {
    var states' := c.states[op.id := NewState(OriginOf(c, op).value, op)];
    forall s | s in states' ensures OriginStands(states'[s], c.continuations, c.requests, c.attempts, c.phases) {
      if s != op.id { assert OriginStands(c.states[s], c.continuations, c.requests, c.attempts, c.phases); }
    }
  }

  lemma NewStateHasDependencies(c: Core, op: Op)
    requires DependenciesStand(c.continuations, c.phases, c.states) && op.CreateState? && CreateStateFaults(c, op) == {}
    requires StatesResolve(c.continuations.Keys, c.requests.Keys, c.attempts.Keys, c.phases.Keys, c.states)
    ensures DependenciesStand(c.continuations, c.phases, c.states[op.id := NewState(OriginOf(c, op).value, op)])
  {
    hide Ancestor, HasCycle, PhaseTooLate, ResolveOrigin;
    var o := OriginOf(c, op).value;
    var states' := c.states[op.id := NewState(o, op)];
    AcceptedDependencies(c, op, o);
    assert op.id !in c.states;
    hide CreateStateFaults, Taken;
    forall s, d | s in states' && d in states'[s].derivedFrom
      ensures d in states' && DependencyStands(states'[s], states'[d], c.continuations, c.phases)
    {
      if s != op.id {
        assert DependencyStands(c.states[s], c.states[d], c.continuations, c.phases);
      } else {
        assert DependencyFaults(c, o, d) == {};
      }
    }
  }

  lemma NewStateExtends(c: Core, op: Op)
    requires Closed(Provenance(c.states)) && !HasCycle(Provenance(c.states))
    requires op.CreateState? && op.id !in c.states && op.derivedFrom <= c.states.Keys && OriginOf(c, op).Ok?
    ensures !HasCycle(Provenance(c.states[op.id := NewState(OriginOf(c, op).value, op)]))
  {
    hide ResolveOrigin;
    var x := NewState(OriginOf(c, op).value, op);
    ExtensionStaysAcyclic(Provenance(c.states), op.id, op.derivedFrom);
    assert Provenance(c.states[op.id := x]) == Provenance(c.states)[op.id := op.derivedFrom];
  }

  lemma CreateStateKeepsStates(c: Core, op: Op)
    requires WellFormed(c) && StatesSound(c.continuations, c.requests, c.attempts, c.phases, c.states, c.replicas)
    requires op.CreateState? && CreateStateFaults(c, op) == {}
    ensures StatesSound(c.continuations, c.requests, c.attempts, c.phases, AfterCreateState(c, op).states, c.replicas)
  {
    hide OriginsStand, DependenciesStand, HasCycle, ResolveOrigin, DerivedLifecycle;
    var states1 := c.states[op.id := NewState(OriginOf(c, op).value, op)];
    NewStateHasOrigin(c, op);
    NewStateHasDependencies(c, op);
    RefreshRelabels(c.continuations, states1);
    var states' := Refreshed(c.continuations, states1);
    RelabelKeepsProvenance(states1, states');
    RelabelKeepsOrigins(c.continuations, c.(states := states1), states');
    RelabelKeepsDependencies(c.continuations, c.phases, states1, states');
  }

  lemma CreateStateKeepsSound(c: Core, op: Op)
    requires Sound(c) && op.CreateState? && CreateStateFaults(c, op) == {}
    ensures Sound(AfterCreateState(c, op))
  {
    hide Identity, WorkSound, StatesSound, BindingsSound, EvidenceStands, EventsStand, WellFormed;
    CreateStateKeepsWellFormed(c, op);
    CreateStateKeepsStates(c, op);
    CreateStateKeepsIdentity(c, op);
  }

  lemma CreateStateKeepsIdentity(c: Core, op: Op)
    requires Identity(c) && op.CreateState? && CreateStateFaults(c, op) == {}
    ensures Identity(AfterCreateState(c, op))
  {
    hide Identity;
    GainKeepsIdentity(c, AfterCreateState(c, op), 6, op.id);
  }

  lemma SetValidityKeepsSound(c: Core, s: Id, v: StateValidity)
    requires Sound(c) && s in c.states
    ensures Sound(AfterSetValidity(c, s, v))
  {
    SetValidityKeepsWellFormed(c, s, v);
    hide Identity, WorkSound, BindingsSound, EvidenceStands, EventsStand, WellFormed, HasCycle, OriginsStand,
        DependenciesStand;
    var c' := AfterSetValidity(c, s, v);
    SetValidityKeepsIdentity(c, s, v);
    ValidityRelabels(c, s, v);
    hide Relabelled, Coherent;
    RelabelKeepsStates(c, c.continuations, c'.states);
  }

  lemma SetValidityKeepsIdentity(c: Core, s: Id, v: StateValidity)
    requires Identity(c) && s in c.states
    ensures Identity(AfterSetValidity(c, s, v))
  {
    hide Identity;
    SameKeepsIdentity(c, AfterSetValidity(c, s, v));
  }

  lemma ValidityRelabels(c: Core, s: Id, v: StateValidity)
    requires s in c.states && Coherent(c.continuations, c.states)
    ensures Relabelled(c.states, AfterSetValidity(c, s, v).states)
    ensures Coherent(c.continuations, AfterSetValidity(c, s, v).states)
  {
    hide DerivedLifecycle;
  }

  // ---------- replicas, programs and sessions ----------

  lemma AddReplicaKeepsSound(c: Core, id: Id, s: Id, location: string, status: ReplicaStatus)
    requires Sound(c) && !Taken(c, id) && s in c.states
    ensures Sound(AfterAddReplica(c, id, s, location, status))
  {
    hide Identity, WorkSound, BindingsSound, EvidenceStands, EventsStand, WellFormed, HasCycle, OriginsStand,
        DependenciesStand, Coherent, Taken;
    FreshReplica(c, id);
    AddReplicaKeepsWellFormed(c, id, s, location, status);
    AddReplicaKeepsIdentity(c, id, s, location, status);
  }

  lemma FreshReplica(c: Core, id: Id)
    requires !Taken(c, id)
    ensures id !in c.replicas
  {
  }

  lemma AddReplicaKeepsIdentity(c: Core, id: Id, s: Id, location: string, status: ReplicaStatus)
    requires Identity(c) && !Taken(c, id)
    ensures Identity(AfterAddReplica(c, id, s, location, status))
  {
    hide Identity;
    GainKeepsIdentity(c, AfterAddReplica(c, id, s, location, status), 7, id);
  }

  lemma SetReplicaStatusKeepsSound(c: Core, r: Id, status: ReplicaStatus)
    requires Sound(c) && r in c.replicas
    ensures Sound(AfterSetReplicaStatus(c, r, status))
  {
    hide Identity, WorkSound, BindingsSound, EvidenceStands, EventsStand, WellFormed, HasCycle, OriginsStand,
        DependenciesStand, Coherent;
    SetReplicaStatusKeepsWellFormed(c, r, status);
    SetReplicaStatusKeepsIdentity(c, r, status);
  }

  lemma SetReplicaStatusKeepsIdentity(c: Core, r: Id, status: ReplicaStatus)
    requires Identity(c) && r in c.replicas
    ensures Identity(AfterSetReplicaStatus(c, r, status))
  {
    hide Identity;
    SameKeepsIdentity(c, AfterSetReplicaStatus(c, r, status));
  }

  lemma CreateProgramKeepsSound(c: Core, id: Id)
    requires Sound(c) && !Taken(c, id)
    ensures Sound(AfterCreateProgram(c, id))
  {
    CreateProgramKeepsWellFormed(c, id);
    CreateProgramKeepsIdentity(c, id);
    hide Identity, WorkSound, StatesSound, BindingsSound, EvidenceStands, EventsStand, WellFormed;
  }

  lemma CreateProgramKeepsIdentity(c: Core, id: Id)
    requires Identity(c) && !Taken(c, id)
    ensures Identity(AfterCreateProgram(c, id))
  {
    hide Identity;
    GainKeepsIdentity(c, AfterCreateProgram(c, id), 0, id);
  }

  lemma SetProgramStatusKeepsSound(c: Core, p: Id, s: ProgramStatus)
    requires Sound(c) && p in c.programs
    ensures Sound(AfterSetProgramStatus(c, p, s))
  {
    SetProgramStatusKeepsWellFormed(c, p, s);
    SetProgramStatusKeepsIdentity(c, p, s);
    hide Identity, WorkSound, StatesSound, BindingsSound, EvidenceStands, EventsStand, WellFormed;
  }

  lemma SetProgramStatusKeepsIdentity(c: Core, p: Id, s: ProgramStatus)
    requires Identity(c) && p in c.programs
    ensures Identity(AfterSetProgramStatus(c, p, s))
  {
    hide Identity;
    SameKeepsIdentity(c, AfterSetProgramStatus(c, p, s));
  }

  lemma CreateSessionKeepsSound(c: Core, id: Id, p: Id)
    requires Sound(c) && !Taken(c, id) && p in c.programs
    ensures Sound(AfterCreateSession(c, id, p))
  {
    CreateSessionKeepsWellFormed(c, id, p);
    CreateSessionKeepsIdentity(c, id, p);
    hide Identity, WorkSound, StatesSound, BindingsSound, EvidenceStands, EventsStand, WellFormed;
  }

  lemma CreateSessionKeepsIdentity(c: Core, id: Id, p: Id)
    requires Identity(c) && !Taken(c, id)
    ensures Identity(AfterCreateSession(c, id, p))
  {
    hide Identity;
    GainKeepsIdentity(c, AfterCreateSession(c, id, p), 1, id);
  }
}
