/** Identity, and what recorded work keeps while requests, attempts and phases move on. */
module Evolution {
  import opened Entities
  import opened CoreSpec
  import opened Graphs
  import opened Invariant
  import opened RunInvariant

  lemma FreshNowhere(c: Core, id: Id)
    requires !Taken(c, id)
    ensures forall i :: !InUse(c, i, id)
  {
  }

  /** At most one identifier was added, a fresh one, to the k-th collection. */
  lemma GainKeepsIdentity(c: Core, c': Core, k: int, id: Id)
    requires Identity(c) && !Taken(c, id)
    requires forall i, x :: InUse(c', i, x) ==> InUse(c, i, x) || (i == k && x == id)
    ensures Identity(c')
  {
    FreshNowhere(c, id);
    hide InUse, Taken;
  }

  lemma SameKeepsIdentity(c: Core, c': Core)
    requires Identity(c) && forall i, x :: InUse(c', i, x) ==> InUse(c, i, x)
    ensures Identity(c')
  {
    hide InUse;
  }

  /** What work already recorded keeps as requests, attempts and phases move on. */
  ghost predicate WorkEvolves(requests: map<Id, LogicalRequest>, attempts: map<Id, Attempt>, phases: map<Id, Phase>,
                              requests': map<Id, LogicalRequest>, attempts': map<Id, Attempt>, phases': map<Id,
                                  Phase>) {
    && (forall r :: r in requests ==> r in requests' && requests'[r].continuationId == requests[r].continuationId
                                      && (requests[r].status == RequestCompleted ==> requests'[r] == requests[r]))
    && (forall a :: a in attempts ==> a in attempts' && attempts'[a].requestId == attempts[a].requestId
                                      && attempts'[a].generation == attempts[a].generation)
    && (forall p :: p in phases ==> p in phases' && phases'[p].attemptId == phases[p].attemptId
                                    && phases'[p].ordinal == phases[p].ordinal
                                    && (phases[p].status == PhaseCompleted ==> phases'[p].status == PhaseCompleted))
  }

  lemma OriginsOutlive(c: Core, c': Core)
    requires OriginsStand(c.continuations, c.requests, c.attempts, c.phases, c.states)
    requires c.continuations.Keys <= c'.continuations.Keys
    requires WorkEvolves(c.requests, c.attempts, c.phases, c'.requests, c'.attempts, c'.phases)
    ensures OriginsStand(c'.continuations, c'.requests, c'.attempts, c'.phases, c.states)
  {
    forall s | s in c.states
      ensures OriginStands(c.states[s], c'.continuations, c'.requests, c'.attempts, c'.phases)
    {
      assert OriginStands(c.states[s], c.continuations, c.requests, c.attempts, c.phases);
    }
  }

  lemma DependenciesOutlive(c: Core, c': Core)
    requires DependenciesStand(c.continuations, c.phases, c.states)
    requires StatesResolve(c.continuations.Keys, c.requests.Keys, c.attempts.Keys, c.phases.Keys, c.states)
    requires WorkEvolves(c.requests, c.attempts, c.phases, c'.requests, c'.attempts, c'.phases)
    ensures DependenciesStand(c.continuations, c'.phases, c.states)
  {
    hide Ancestor;
    forall s, d | s in c.states && d in c.states[s].derivedFrom
      ensures d in c.states && DependencyStands(c.states[s], c.states[d], c.continuations, c'.phases)
    {
      assert DependencyStands(c.states[s], c.states[d], c.continuations, c.phases);
      assert StateResolves(c.states[s], c.continuations.Keys, c.requests.Keys, c.attempts.Keys, c.phases.Keys,
             c.states.Keys);
      assert StateResolves(c.states[d], c.continuations.Keys, c.requests.Keys, c.attempts.Keys, c.phases.Keys,
             c.states.Keys);
    }
  }

  lemma WorkEvolutionKeepsStates(c: Core, c': Core)
    requires WellFormed(c) && StatesSound(c.continuations, c.requests, c.attempts, c.phases, c.states, c.replicas)
    requires c'.continuations == c.continuations && c'.states == c.states && c'.replicas == c.replicas
    requires WorkEvolves(c.requests, c.attempts, c.phases, c'.requests, c'.attempts, c'.phases)
    ensures StatesSound(c'.continuations, c'.requests, c'.attempts, c'.phases, c'.states, c'.replicas)
  {
    hide OriginsStand, DependenciesStand, WorkEvolves, StatesResolve, Coherent, ReplicasStand, HasCycle;
    OriginsOutlive(c, c');
    DependenciesOutlive(c, c');
  }

  /** Completed requests, their outputs and the evidence are as before. */
  lemma GateUntouched(c: Core, c': Core)
    requires CompletedGated(c.requests, c.outputs, c.evidence) && c'.evidence == c.evidence
    requires forall r :: r in c'.requests && c'.requests[r].status == RequestCompleted ==>
             r in c.requests && c'.requests[r] == c.requests[r]
    requires forall o :: o in c.outputs ==> o in c'.outputs && c'.outputs[o] == c.outputs[o]
    ensures CompletedGated(c'.requests, c'.outputs, c'.evidence)
  {
    hide PassedGate;
  }

  lemma SameGenerations(attempts: map<Id, Attempt>, a: Id, x: Attempt)
    requires a in attempts && x.requestId == attempts[a].requestId && x.generation == attempts[a].generation
    ensures AttemptNumbers(attempts[a := x]) == AttemptNumbers(attempts)
    ensures forall b :: Newest(attempts, b) ==> Newest(attempts[a := x], b)
  {
  }

  lemma SameOrdinals(phases: map<Id, Phase>, p: Id, x: Phase)
    requires p in phases && x.attemptId == phases[p].attemptId && x.ordinal == phases[p].ordinal
    ensures PhaseNumbers(phases[p := x]) == PhaseNumbers(phases)
  {
  }

  /** A request stands as long as its newest attempt keeps its authority and its success. */
  lemma RequestStillStands(r: LogicalRequest, attempts: map<Id, Attempt>, outputs: map<Id, Output>,
                           attempts': map<Id, Attempt>, outputs': map<Id, Output>)
    requires RequestStands(r, attempts, outputs)
    requires forall x :: x in attempts && Newest(attempts, x) && attempts[x].requestId == r.id ==>
               && x in attempts' && Newest(attempts', x) && attempts'[x].requestId == r.id
               && attempts'[x].authorityStatus == attempts[x].authorityStatus
               && (attempts[x].executionStatus == ExecSucceeded ==> attempts'[x].executionStatus == ExecSucceeded)
    requires forall o :: o in outputs ==> o in outputs' && outputs'[o] == outputs[o]
    ensures RequestStands(r, attempts', outputs')
  {
  }
}

/** Requests, attempts, phases and outputs: each operation keeps `Sound`. */
module WorkSteps {
  import opened Entities
  import opened EvidenceGate
  import opened CoreSpec
  import opened Numbering
  import opened Invariant
  import opened RunInvariant
  import opened Evolution

  lemma CreateRequestKeepsSound(c: Core, id: Id, k: Id)
    requires Sound(c) && UnderFaults(c, id, k in c.continuations) == {}
    ensures Sound(AfterCreateRequest(c, id, k))
  {
    hide WellFormed, Identity, WorkSound, StatesSound, BindingsSound, EvidenceStands, EventsStand;
    CreateRequestKeepsWellFormed(c, id, k);
    CreateRequestKeepsIdentity(c, id, k);
    CreateRequestKeepsWork(c, id, k);
    WorkEvolutionKeepsStates(c, AfterCreateRequest(c, id, k));
  }

  lemma CreateRequestKeepsIdentity(c: Core, id: Id, k: Id)
    requires Identity(c) && !Taken(c, id)
    ensures Identity(AfterCreateRequest(c, id, k))
  {
    hide Identity;
    GainKeepsIdentity(c, AfterCreateRequest(c, id, k), 3, id);
  }

  lemma CreateRequestKeepsWork(c: Core, id: Id, k: Id)
    requires WorkSound(c.requests, c.attempts, c.phases, c.outputs, c.evidence) && id !in c.requests
    ensures var c' := AfterCreateRequest(c, id, k);
            && WorkSound(c'.requests, c'.attempts, c'.phases, c'.outputs, c'.evidence)
            && WorkEvolves(c.requests, c.attempts, c.phases, c'.requests, c'.attempts, c'.phases)
  {
    hide CompletedGated, NumbersStand, RequestStands, OutputsStand;
    var c' := AfterCreateRequest(c, id, k);
    forall r | r in c'.requests ensures RequestStands(c'.requests[r], c'.attempts, c'.outputs) {
      if r != id { assert RequestStands(c.requests[r], c.attempts, c.outputs); }
      else { NewRequestStands(id, k, c.attempts, c.outputs); }
    }
    forall a | a in c'.attempts ensures AttemptStands(c'.attempts[a], c'.requests) {
      assert AttemptStands(c.attempts[a], c.requests);
    }
    GateUntouched(c, c');
  }

  lemma NewRequestStands(id: Id, k: Id, attempts: map<Id, Attempt>, outputs: map<Id, Output>)
    ensures RequestStands(LogicalRequest(id, k, RequestReady, None, None, None), attempts, outputs)
  {
  }

  // ---------- starting an attempt ----------

  /** The new attempt is numbered past all others of its request. */
  lemma StartAttemptNumbers(c: Core, id: Id, r: Id)
    requires NumbersStand(AttemptNumbers(c.attempts)) && r in c.requests && id !in c.attempts
    ensures NumbersStand(AttemptNumbers(AfterStartAttempt(c, id, r).attempts))
    ensures Newest(AfterStartAttempt(c, id, r).attempts, id)
    ensures forall a :: Newest(c.attempts, a) && c.attempts[a].requestId != r ==>
            Newest(AfterStartAttempt(c, id, r).attempts, a)
  {
    var attempts' := AfterStartAttempt(c, id, r).attempts;
    var m := AttemptNumbers(c.attempts);
    StartNumbers(c, id, r);
    NextKeepsNumbering(m, id, r);
    forall b | b in attempts' && b != id && attempts'[b].requestId == r
      ensures attempts'[b].generation < attempts'[id].generation
    {
      assert m[b].0 == r;
    }
    hide NumbersStand, Largest;
  }

  lemma StartNumbers(c: Core, id: Id, r: Id)
    requires NumbersStand(AttemptNumbers(c.attempts)) && r in c.requests && id !in c.attempts
    ensures AttemptNumbers(AfterStartAttempt(c, id, r).attempts) ==
            AttemptNumbers(c.attempts)[id := (r, Largest(AttemptNumbers(c.attempts), r) + 1)]
    ensures AfterStartAttempt(c, id, r).attempts[id].generation == Largest(AttemptNumbers(c.attempts), r) + 1
  {
    hide Largest, NumbersStand;
  }

  lemma StartAttemptKeepsSound(c: Core, id: Id, r: Id)
    requires Sound(c) && StartFaults(c, id, r) == {}
    ensures Sound(AfterStartAttempt(c, id, r))
  {
    StartAttemptKeepsWellFormed(c, id, r);
    StartAttemptKeepsIdentity(c, id, r);
    StartAttemptKeepsWork(c, id, r);
    hide WellFormed, Identity, WorkSound, StatesSound, BindingsSound, EvidenceStands, EventsStand, WorkEvolves;
    WorkEvolutionKeepsStates(c, AfterStartAttempt(c, id, r));
  }

  lemma StartAttemptKeepsIdentity(c: Core, id: Id, r: Id)
    requires Identity(c) && !Taken(c, id) && r in c.requests
    ensures Identity(AfterStartAttempt(c, id, r))
  {
    hide Identity;
    GainKeepsIdentity(c, AfterStartAttempt(c, id, r), 4, id);
  }

  /** A start concerns one request; the attempts of every other one are untouched. */
  lemma OtherRequestAfterStart(c: Core, id: Id, r: Id, q: Id)
    requires RequestsKeyed(c.requests) && RequestsStand(c.requests, c.attempts, c.outputs)
    requires NumbersStand(AttemptNumbers(c.attempts))
    requires r in c.requests && q in c.requests && q != r && id !in c.attempts
    ensures RequestStands(c.requests[q], AfterStartAttempt(c, id, r).attempts, c.outputs)
  {
    var attempts' := AfterStartAttempt(c, id, r).attempts;
    StartAttemptNumbers(c, id, r);
    assert RequestStands(c.requests[r], c.attempts, c.outputs);
    forall x | x in c.attempts && Newest(c.attempts, x) && c.attempts[x].requestId == q
      ensures x in attempts' && Newest(attempts', x) && attempts'[x] == c.attempts[x]
    {
      hide Newest, NumbersStand;
    }
    hide Newest, NumbersStand;
    assert RequestStands(c.requests[q], c.attempts, c.outputs);
    RequestStillStands(c.requests[q], c.attempts, c.outputs, attempts', c.outputs);
  }

  /** The started request names the new attempt; whoever lost authority had a truthy identifier. */
  lemma AuthorityAfterStart(c: Core, id: Id, r: Id)
    requires RequestsKeyed(c.requests) && AttemptsKeyed(c.attempts) && AttemptsStand(c.attempts, c.requests)
    requires r in c.requests && id !in c.attempts && c.requests[r].committedAttemptId.None?
    requires c.requests[r].status != RequestCompleted
    requires var current := c.requests[r].currentAttemptId;
             current.Some? ==> current.value in c.attempts && c.attempts[current.value].requestId == r
    ensures var c' := AfterStartAttempt(c, id, r);
            && AttemptsStand(c'.attempts, c'.requests)
            && WorkEvolves(c.requests, c.attempts, c.phases, c'.requests, c'.attempts, c'.phases)
  {
    var c' := AfterStartAttempt(c, id, r);
    forall a | a in c'.attempts ensures AttemptStands(c'.attempts[a], c'.requests) {
      if a != id { assert AttemptStands(c.attempts[a], c.requests); }
    }
  }

  lemma StartAttemptKeepsWork(c: Core, id: Id, r: Id)
    requires RequestsKeyed(c.requests) && AttemptsKeyed(c.attempts)
    requires WorkSound(c.requests, c.attempts, c.phases, c.outputs, c.evidence) && StartFaults(c, id, r) == {}
    ensures var c' := AfterStartAttempt(c, id, r);
            && WorkSound(c'.requests, c'.attempts, c'.phases, c'.outputs, c'.evidence)
            && WorkEvolves(c.requests, c.attempts, c.phases, c'.requests, c'.attempts, c'.phases)
  {
    hide CompletedGated, NumbersStand, OutputsStand, AttemptsStand, WorkEvolves;
    var c' := AfterStartAttempt(c, id, r);
    StartAttemptNumbers(c, id, r);
    assert RequestStands(c.requests[r], c.attempts, c.outputs);
    AuthorityAfterStart(c, id, r);
    hide RequestStands, Newest;
    forall q | q in c'.requests ensures RequestStands(c'.requests[q], c'.attempts, c'.outputs) {
      if q == r {
        StartedRequestStands(c.requests[r], c'.attempts, c.outputs, id);
      } else {
        OtherRequestAfterStart(c, id, r, q);
      }
    }
    GateUntouched(c, c');
  }

  lemma StartedRequestStands(r: LogicalRequest, attempts: map<Id, Attempt>, outputs: map<Id, Output>, id: Id)
    requires r.committedAttemptId.None? && r.authoritativeOutputId.None? && Holds(attempts, id, r.id, Current)
    ensures RequestStands(r.(status := RequestRunning, currentAttemptId := Some(id)), attempts, outputs)
  {
  }

  // ---------- execution outcomes ----------

  lemma SetExecutionKeepsSound(c: Core, a: Id, s: ExecutionStatus)
    requires Sound(c) && ExecutionFaults(c, a, s) == {}
    ensures Sound(AfterSetExecution(c, a, s))
  {
    SetExecutionKeepsWellFormed(c, a, s);
    SetExecutionKeepsIdentity(c, a, s);
    hide WellFormed, Identity, WorkSound, StatesSound, BindingsSound, EvidenceStands, EventsStand, WorkEvolves;
    SetExecutionKeepsWork(c, a, s);
    WorkEvolutionKeepsStates(c, AfterSetExecution(c, a, s));
  }

  lemma SetExecutionKeepsIdentity(c: Core, a: Id, s: ExecutionStatus)
    requires Identity(c) && a in c.attempts
    ensures Identity(AfterSetExecution(c, a, s))
  {
    hide Identity;
    SameKeepsIdentity(c, AfterSetExecution(c, a, s));
  }

  lemma SetExecutionKeepsWork(c: Core, a: Id, s: ExecutionStatus)
    requires WorkSound(c.requests, c.attempts, c.phases, c.outputs, c.evidence) && ExecutionFaults(c, a, s) == {}
    ensures var c' := AfterSetExecution(c, a, s);
            && WorkSound(c'.requests, c'.attempts, c'.phases, c'.outputs, c'.evidence)
            && WorkEvolves(c.requests, c.attempts, c.phases, c'.requests, c'.attempts, c'.phases)
  {
    hide CompletedGated, NumbersStand, OutputsStand, Newest, RequestStands, AttemptNumbers;
    var c' := AfterSetExecution(c, a, s);
    SameGenerations(c.attempts, a, c'.attempts[a]);
    hide AttemptsStand;
    forall q | q in c'.requests ensures RequestStands(c'.requests[q], c'.attempts, c'.outputs) {
      assert RequestStands(c.requests[q], c.attempts, c.outputs);
      RequestStillStands(c.requests[q], c.attempts, c.outputs, c'.attempts, c'.outputs);
    }
  }

  // ---------- phases ----------

  lemma CreatePhaseKeepsSound(c: Core, id: Id, a: Id, kind: PhaseType, ordinal: Option<int>)
    requires Sound(c) && CreatePhaseFaults(c, id, a, ordinal) == {}
    ensures Sound(AfterCreatePhase(c, id, a, kind))
  {
    CreatePhaseKeepsWellFormed(c, id, a, kind);
    CreatePhaseKeepsIdentity(c, id, a, kind);
    hide WellFormed, Identity, WorkSound, StatesSound, BindingsSound, EvidenceStands, EventsStand, WorkEvolves;
    CreatePhaseKeepsWork(c, id, a, kind);
    WorkEvolutionKeepsStates(c, AfterCreatePhase(c, id, a, kind));
  }

  lemma CreatePhaseKeepsIdentity(c: Core, id: Id, a: Id, kind: PhaseType)
    requires Identity(c) && !Taken(c, id)
    ensures Identity(AfterCreatePhase(c, id, a, kind))
  {
    hide Identity;
    GainKeepsIdentity(c, AfterCreatePhase(c, id, a, kind), 5, id);
  }

  lemma CreatePhaseKeepsWork(c: Core, id: Id, a: Id, kind: PhaseType)
    requires WorkSound(c.requests, c.attempts, c.phases, c.outputs, c.evidence) && id !in c.phases
    ensures var c' := AfterCreatePhase(c, id, a, kind);
            && WorkSound(c'.requests, c'.attempts, c'.phases, c'.outputs, c'.evidence)
            && WorkEvolves(c.requests, c.attempts, c.phases, c'.requests, c'.attempts, c'.phases)
  {
    hide CompletedGated, OutputsStand, RequestsStand, AttemptsStand;
    var m := PhaseNumbers(c.phases);
    assert PhaseNumbers(AfterCreatePhase(c, id, a, kind).phases) == m[id := (a, Largest(m, a) + 1)];
    NextKeepsNumbering(m, id, a);
  }

  lemma SetPhaseStatusKeepsSound(c: Core, p: Id, s: PhaseStatus)
    requires Sound(c) && PhaseFaults(c, p, s) == {}
    ensures Sound(AfterSetPhaseStatus(c, p, s))
  {
    SetPhaseStatusKeepsWellFormed(c, p, s);
    hide WellFormed, Identity, StatesSound, BindingsSound, EvidenceStands, EventsStand,
         CompletedGated, OutputsStand, RequestsStand, AttemptsStand, NumbersStand, PhaseNumbers, AttemptNumbers;
    var c' := AfterSetPhaseStatus(c, p, s);
    SetPhaseStatusKeepsIdentity(c, p, s);
    SameOrdinals(c.phases, p, c'.phases[p]);
    SetPhaseEvolves(c, p, s);
    hide WorkEvolves;
    WorkEvolutionKeepsStates(c, c');
  }

  lemma SetPhaseStatusKeepsIdentity(c: Core, p: Id, s: PhaseStatus)
    requires Identity(c) && p in c.phases
    ensures Identity(AfterSetPhaseStatus(c, p, s))
  {
    hide Identity;
    SameKeepsIdentity(c, AfterSetPhaseStatus(c, p, s));
  }

  lemma SetPhaseEvolves(c: Core, p: Id, s: PhaseStatus)
    requires PhaseFaults(c, p, s) == {}
    ensures WorkEvolves(c.requests, c.attempts, c.phases, c.requests, c.attempts, AfterSetPhaseStatus(c, p, s).phases)
  {
  }

  // ---------- outputs and finalization ----------

  lemma CreateOutputKeepsSound(c: Core, id: Id, a: Id, terminal: bool, ev: set<Id>)
    requires Sound(c) && OutputFaults(c, id, a, ev) == {}
    ensures Sound(AfterCreateOutput(c, id, a, terminal, ev))
  {
    CreateOutputKeepsWellFormed(c, id, a, terminal, ev);
    CreateOutputKeepsIdentity(c, id, a, terminal, ev);
    hide WellFormed, Identity, WorkSound, StatesSound, BindingsSound, EvidenceStands, EventsStand;
    CreateOutputKeepsWork(c, id, a, terminal, ev);
  }

  lemma CreateOutputKeepsIdentity(c: Core, id: Id, a: Id, terminal: bool, ev: set<Id>)
    requires Identity(c) && !Taken(c, id)
    ensures Identity(AfterCreateOutput(c, id, a, terminal, ev))
  {
    hide Identity;
    GainKeepsIdentity(c, AfterCreateOutput(c, id, a, terminal, ev), 10, id);
  }

  lemma CreateOutputKeepsWork(c: Core, id: Id, a: Id, terminal: bool, ev: set<Id>)
    requires WorkSound(c.requests, c.attempts, c.phases, c.outputs, c.evidence) && id !in c.outputs
    requires ev <= c.evidence.Keys
    ensures var c' := AfterCreateOutput(c, id, a, terminal, ev);
            WorkSound(c'.requests, c'.attempts, c'.phases, c'.outputs, c'.evidence)
  {
    hide CompletedGated, NumbersStand, AttemptsStand, RequestStands;
    var c' := AfterCreateOutput(c, id, a, terminal, ev);
    GateUntouched(c, c');
    forall q | q in c'.requests ensures RequestStands(c'.requests[q], c'.attempts, c'.outputs) {
      assert RequestStands(c.requests[q], c.attempts, c.outputs);
      RequestStillStands(c.requests[q], c.attempts, c.outputs, c'.attempts, c'.outputs);
    }
  }

  lemma FinalizeKeepsSound(c: Core, r: Id, o: Id, now: real)
    requires Sound(c) && FinalizeFaults(c, r, o, now) == {} && c.requests[r].status != RequestCompleted
    ensures Sound(AfterFinalize(c, r, o))
  {
    hide Identity, WorkSound, StatesSound, BindingsSound, EvidenceStands, EventsStand, WorkEvolves, Sufficient, Offered;
    FinalizeKeepsWork(c, r, o, now);
    assert r in c.requests && o in c.outputs && c.outputs[o].attemptId in c.attempts;
    hide FinalizeFaults, WellFormed;
    FinalizeKeepsWellFormed(c, r, o);
    FinalizeKeepsIdentity(c, r, o);
    WorkEvolutionKeepsStates(c, AfterFinalize(c, r, o));
  }

  lemma FinalizeKeepsIdentity(c: Core, r: Id, o: Id)
    requires Identity(c) && r in c.requests && o in c.outputs && c.outputs[o].attemptId in c.attempts
    ensures Identity(AfterFinalize(c, r, o))
  {
    hide Identity;
    SameKeepsIdentity(c, AfterFinalize(c, r, o));
  }

  lemma FinalizeKeepsWork(c: Core, r: Id, o: Id, now: real)
    requires RequestsKeyed(c.requests) && AttemptsKeyed(c.attempts)
    requires WorkSound(c.requests, c.attempts, c.phases, c.outputs, c.evidence)
    requires FinalizeFaults(c, r, o, now) == {} && c.requests[r].status != RequestCompleted
    ensures var c' := AfterFinalize(c, r, o);
            && WorkSound(c'.requests, c'.attempts, c'.phases, c'.outputs, c'.evidence)
            && WorkEvolves(c.requests, c.attempts, c.phases, c'.requests, c'.attempts, c'.phases)
  {
    hide CompletedGated, PassedGate, NumbersStand, OutputsStand, Sufficient, Offered, AttemptNumbers, Newest,
        AttemptsStand;
    var c' := AfterFinalize(c, r, o);
    var a := c.outputs[o].attemptId;
    assert RequestStands(c.requests[r], c.attempts, c.outputs);
    SameGenerations(c.attempts, a, c'.attempts[a]);
    FinalizeGates(c, r, o, now);
    AuthorityAfterFinalize(c, r, o);
    assert RequestStands(c'.requests[r], c'.attempts, c.outputs);
    assert c.attempts[a].requestId == r;
    hide RequestStands;
    forall q | q in c'.requests ensures RequestStands(c'.requests[q], c'.attempts, c'.outputs) {
      if q != r {
        assert RequestStands(c.requests[q], c.attempts, c.outputs);
        RequestStillStands(c.requests[q], c.attempts, c.outputs, c'.attempts, c'.outputs);
      }
    }
  }

  lemma AuthorityAfterFinalize(c: Core, r: Id, o: Id)
    requires RequestsKeyed(c.requests) && AttemptsKeyed(c.attempts) && AttemptsStand(c.attempts, c.requests)
    requires r in c.requests && o in c.outputs && c.outputs[o].attemptId in c.attempts
    requires c.requests[r].currentAttemptId == Some(c.outputs[o].attemptId)
    requires c.attempts[c.outputs[o].attemptId].requestId == r
    requires c.requests[r].committedAttemptId.None? && c.requests[r].status != RequestCompleted
    ensures var c' := AfterFinalize(c, r, o);
            && AttemptsStand(c'.attempts, c'.requests)
            && WorkEvolves(c.requests, c.attempts, c.phases, c'.requests, c'.attempts, c'.phases)
  {
    var c' := AfterFinalize(c, r, o);
    forall x | x in c'.attempts ensures AttemptStands(c'.attempts[x], c'.requests) {
      assert AttemptStands(c.attempts[x], c.requests);
    }
  }

  /** The output that finalizes a request passed the gate at that very moment. */
  lemma FinalizeGates(c: Core, r: Id, o: Id, now: real)
    requires AttemptsKeyed(c.attempts) && CompletedGated(c.requests, c.outputs, c.evidence)
    requires OutputsStand(c.outputs, c.evidence.Keys)
    requires FinalizeFaults(c, r, o, now) == {} && c.requests[r].status != RequestCompleted
    ensures CompletedGated(AfterFinalize(c, r, o).requests, c.outputs, c.evidence)
  {
    hide Sufficient, Offered;
    var requests := AfterFinalize(c, r, o).requests;
    assert PassedGate(c.outputs[o], c.evidence);
    hide PassedGate;
    forall q | q in requests && requests[q].status == RequestCompleted && requests[q].authoritativeOutputId.Some?
      ensures requests[q].authoritativeOutputId.value in c.outputs
      ensures PassedGate(c.outputs[requests[q].authoritativeOutputId.value], c.evidence)
    {
      assert q != r ==> requests[q] == c.requests[q];
    }
  }
}
