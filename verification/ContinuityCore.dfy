/** The core as the object the program runs: maps updated in place, one method per operation. */
module LiveCore {
  import opened Entities
  import opened EvidenceGate
  import opened CoreSpec
  import opened Graphs
  import opened Numbering
  import opened StateCompatibility
  import opened Invariant

  lemma AcceptedIsFresh(c: Core, w: Id, child: Id)
    requires ResumeFaults(c, w, child) == {}
    ensures child !in c.continuations
  {
    hide HasCycle, ParentFaults;
  }

  /** A lifecycle is not part of the parent graph. */
  lemma ParentsUnchanged(cs: map<Id, Continuation>, k: Id, life: ContinuationLifecycle)
    requires k in cs
    ensures Parents(cs[k := cs[k].(lifecycle := life)]) == Parents(cs)
  {
  }

  class ContinuityCore {
    var programs: map<Id, Program>
    var sessions: map<Id, Session>
    var continuations: map<Id, Continuation>
    var requests: map<Id, LogicalRequest>
    var attempts: map<Id, Attempt>
    var phases: map<Id, Phase>
    var states: map<Id, ReusableState>
    var replicas: map<Id, StateReplica>
    var bindings: map<Id, Binding>
    var evidence: map<Id, Evidence>
    var outputs: map<Id, Output>
    var events: map<Id, SemanticEvent>
    var eventOrder: seq<Id>
    var currentBinding: map<Id, Id>
    var currentEpoch: map<Id, int>
    var lastAllocated: map<Id, int>
    const semanticValidity: SemanticValidity

    function View(): Core
      reads this
    {
      Core(programs, sessions, continuations, requests, attempts, phases, states, replicas, bindings, evidence,
          outputs, events,
           eventOrder, currentBinding, currentEpoch, lastAllocated)
    }

    ghost predicate Valid()
      reads this
    {
      WellFormed(View())
    }

    constructor (semanticValidity: SemanticValidity)
      ensures Valid() && View() == EmptyCore && this.semanticValidity == semanticValidity
    {
      programs, sessions, continuations, requests, attempts, phases := map[], map[], map[], map[], map[], map[];
      states, replicas, bindings, evidence, outputs, events := map[], map[], map[], map[], map[], map[];
      eventOrder, currentBinding, currentEpoch, lastAllocated := [], map[], map[], map[];
      this.semanticValidity := semanticValidity;
    }

    // ---------- programs, sessions and continuations ----------

    method CreateProgram(id: Id) returns (r: Result<Program>)
      requires Valid()
      modifies this
      ensures Valid() && Answers(r, FreshFaults(old(View()), id))
      ensures View() == if r.Ok? then AfterCreateProgram(old(View()), id) else old(View())
      ensures r.Ok? ==> id in programs && r.value == programs[id]
    {
      hide WellFormed;
      if Taken(View(), id) {
        return Err(SemanticViolation);
      }
      CreateProgramKeepsWellFormed(View(), id);
      var p := Program(id, ProgramCreated);
      programs := programs[id := p];
      return Ok(p);
    }

    method SetProgramStatus(programId: Id, status: ProgramStatus) returns (r: Result<Program>)
      requires Valid()
      modifies this
      ensures Valid() && Answers(r, ProgramStatusFaults(old(View()), programId, status))
      ensures View() == if r.Ok? then AfterSetProgramStatus(old(View()), programId, status) else old(View())
      ensures r.Ok? ==> programId in programs && r.value == programs[programId]
    {
      hide WellFormed;
      if programId !in programs {
        return Err(KeyError);
      }
      var p := programs[programId];
      if TerminalProgram(p.status) && status != p.status {
        return Err(InvalidTransition);
      }
      SetProgramStatusKeepsWellFormed(View(), programId, status);
      p := p.(status := status);
      programs := programs[programId := p];
      return Ok(p);
    }

    method CreateSession(id: Id, programId: Id) returns (r: Result<Session>)
      requires Valid()
      modifies this
      ensures Valid() && Answers(r, UnderFaults(old(View()), id, programId in old(programs)))
      ensures View() == if r.Ok? then AfterCreateSession(old(View()), id, programId) else old(View())
      ensures r.Ok? ==> id in sessions && r.value == sessions[id]
    {
      hide WellFormed;
      if Taken(View(), id) {
        return Err(SemanticViolation);
      }
      if programId !in programs {
        return Err(KeyError);
      }
      CreateSessionKeepsWellFormed(View(), id, programId);
      var s := Session(id, programId);
      sessions := sessions[id := s];
      return Ok(s);
    }

    method CreateContinuation(id: Id, sessionId: Id, parentIds: set<Id>, lifecycle: ContinuationLifecycle)
      returns (r: Result<Continuation>)
      requires Valid()
      modifies this
      ensures Valid() && Answers(r, ContinuationFaults(old(View()), id, sessionId, parentIds, lifecycle))
      ensures View() == if r.Ok? then AfterCreateContinuation(old(View()), id, sessionId, parentIds, lifecycle)
              else old(View())
      ensures r.Ok? ==> id in continuations && r.value == continuations[id]
    {
      hide WellFormed, HasCycle, Refreshed, Closed, Parents, ParentageFaults, Taken, SessionGraph;
      UnrefusedIsNew(View(), id, sessionId, parentIds);
      ghost var before := View();
      var refused := ParentageError(id, sessionId, parentIds);
      if refused.Some? {
        return Err(refused.value);
      }
      var c := Continuation(id, sessionId, parentIds, lifecycle);
      var cycle := InsertContinuation(c);
      if cycle {
        return Err(SemanticViolation);
      }
      AcceptedContinuation(before, id, sessionId, parentIds, lifecycle);
      RefreshStateLifecycles();
      assert View() == AfterCreateContinuation(before, id, sessionId, parentIds, lifecycle);
      return Ok(c);
    }

    /** Inserts a new continuation, and takes it out again when its Session then holds a cycle. */
    method InsertContinuation(c: Continuation) returns (cycle: bool)
      requires c.id !in continuations
      modifies this`continuations
      ensures cycle <==> HasCycle(SessionGraph(old(continuations)[c.id := c], c.sessionId))
      ensures continuations == if cycle then old(continuations) else old(continuations)[c.id := c]
    {
      continuations := continuations[c.id := c];
      cycle := HasSessionCycle(c.sessionId);
      if cycle {
        continuations := continuations - {c.id};
      }
    }

    /**
     The checks `CreateContinuation` makes before it inserts the node. With several bad parents the
     iteration order of the frozen set picks which error is raised.
     */
    method ParentageError(id: Id, sessionId: Id, parentIds: set<Id>) returns (e: Option<Error>)
      ensures if e.Some? then e.value in ParentageFaults(View(), id, sessionId, parentIds)
              else ParentageFaults(View(), id, sessionId, parentIds) == {}
    {
      if Taken(View(), id) {
        return Some(SemanticViolation);
      }
      if sessionId !in sessions {
        return Some(KeyError);
      }
      ghost var bad := set p, x | p in parentIds && x in ParentFaults(View(), sessionId, p) :: x;
      var todo := parentIds;
      while todo != {}
        invariant todo <= parentIds
        invariant forall p :: p in parentIds && p !in todo ==> ParentFaults(View(), sessionId, p) == {}
        decreases todo
      {
        var p :| p in todo;
        todo := todo - {p};
        if p !in continuations {
          assert KeyError in ParentFaults(View(), sessionId, p);
          return Some(KeyError);
        }
        if continuations[p].sessionId != sessionId {
          assert SemanticViolation in ParentFaults(View(), sessionId, p);
          return Some(SemanticViolation);
        }
      }
      assert bad == {};
      return None;
    }

    method HasSessionCycle(sessionId: Id) returns (cycle: bool)
      ensures cycle <==> HasCycle(SessionGraph(continuations, sessionId))
    {
      cycle := DetectCycle(SessionGraph(continuations, sessionId));
    }

    method IsAncestor(ancestorId: Id, descendantId: Id) returns (found: bool)
      requires Closed(Parents(continuations)) && (descendantId in continuations || ancestorId == descendantId)
      ensures found <==> Ancestor(continuations, ancestorId, descendantId)
    {
      found := WorklistReaches(Parents(continuations), descendantId, ancestorId);
    }

    /** The contributions of the live descendants of one origin, then their maximum. */
    method LifecycleOf(origin: Id) returns (life: StateLifecycle)
      requires Closed(Parents(continuations))
      ensures life == DerivedLifecycle(continuations, origin)
    {
      var candidates: set<StateLifecycle> := {};
      var todo := continuations.Keys;
      while todo != {}
        invariant todo <= continuations.Keys
        invariant forall d :: d in continuations && d !in todo && Ancestor(continuations, origin, d) ==>
          && (continuations[d].lifecycle == LifeActive ==> Active in candidates)
          && (continuations[d].lifecycle == LifeWaiting ==> Waiting in candidates)
          && (continuations[d].lifecycle == LifeSpeculative ==> Speculative in candidates)
        invariant Active in candidates ==> LiveDescendant(continuations, origin, LifeActive)
        invariant Waiting in candidates ==> LiveDescendant(continuations, origin, LifeWaiting)
        invariant Speculative in candidates ==> LiveDescendant(continuations, origin, LifeSpeculative)
        decreases todo
      {
        var d :| d in todo;
        todo := todo - {d};
        var ancestor := IsAncestor(origin, d);
        if ancestor {
          match continuations[d].lifecycle
          case LifeActive => candidates := candidates + {Active};
          case LifeWaiting => candidates := candidates + {Waiting};
          case LifeSpeculative => candidates := candidates + {Speculative};
          case _ =>
        }
      }
      return if Active in candidates then Active
             else if Waiting in candidates then Waiting
             else if Speculative in candidates then Speculative
             else Terminal;
    }

    method RefreshStateLifecycles()
      requires Closed(Parents(continuations))
      modifies this`states
      ensures states == Refreshed(continuations, old(states))
    {
      ghost var before := states;
      var todo := states.Keys;
      while todo != {}
        invariant todo <= before.Keys && states.Keys == before.Keys
        invariant forall s :: s in before && s in todo ==> states[s] == before[s]
        invariant forall s :: s in before && s !in todo ==>
          states[s] == before[s].(lifecycle := DerivedLifecycle(continuations, before[s].originContinuationId))
        decreases todo
      {
        var s :| s in todo;
        todo := todo - {s};
        var life := LifecycleOf(states[s].originContinuationId);
        states := states[s := states[s].(lifecycle := life)];
      }
      assert states == Refreshed(continuations, before);
    }

    method SetContinuationLifecycle(continuationId: Id, lifecycle: ContinuationLifecycle)
      returns (r: Result<Continuation>)
      requires Valid()
      modifies this
      ensures Valid() && Answers(r, LifecycleFaults(old(View()), continuationId, lifecycle))
      ensures View() == if r.Ok? then AfterSetLifecycle(old(View()), continuationId, lifecycle) else old(View())
      ensures r.Ok? ==> continuationId in continuations && r.value == continuations[continuationId]
    {
      hide WellFormed, HasCycle, DerivedLifecycle, Refreshed, Parents, Closed;
      if continuationId !in continuations {
        return Err(KeyError);
      }
      var c := continuations[continuationId];
      if TerminalLife(c.lifecycle) && lifecycle != c.lifecycle {
        return Err(InvalidTransition);
      }
      WellFormedGraphsClosed(View());
      SetLifecycleKeepsWellFormed(View(), continuationId, lifecycle);
      ParentsUnchanged(continuations, continuationId, lifecycle);
      c := c.(lifecycle := lifecycle);
      continuations := continuations[continuationId := c];
      RefreshStateLifecycles();
      return Ok(c);
    }

    method ResumeAfterWait(waitingId: Id, childId: Id) returns (r: Result<Continuation>)
      requires Valid()
      modifies this
      ensures Valid() && Answers(r, ResumeFaults(old(View()), waitingId, childId))
      ensures View() == if r.Ok? then AfterResume(old(View()), waitingId, childId) else old(View())
      ensures r.Ok? ==> childId in continuations && r.value == continuations[childId]
    {
      hide WellFormed, ParentFaults, ContinuationFaults, HasCycle, DerivedLifecycle, Refreshed, Parents, Closed;
      if waitingId !in continuations {
        return Err(KeyError);
      }
      var c := continuations[waitingId];
      if c.lifecycle != LifeWaiting {
        return Err(InvalidTransition);
      }
      ghost var before := View();
      r := CreateContinuation(childId, c.sessionId, {waitingId}, LifeActive);
      if r.Err? {
        return;
      }
      WellFormedGraphsClosed(View());
      ResumeKeepsWellFormed(before, waitingId, childId);
      AcceptedIsFresh(before, waitingId, childId);
      ParentsUnchanged(continuations, waitingId, LifeTerminal);
      continuations := continuations[waitingId := c.(lifecycle := LifeTerminal)];
      ghost var once := states;
      RefreshStateLifecycles();
      RefreshAgain(continuations, before.continuations[childId := r.value], before.states);
    }

    // ---------- requests and attempts ----------

    method CreateRequest(id: Id, continuationId: Id) returns (r: Result<LogicalRequest>)
      requires Valid()
      modifies this
      ensures Valid() && Answers(r, UnderFaults(old(View()), id, continuationId in old(continuations)))
      ensures View() == if r.Ok? then AfterCreateRequest(old(View()), id, continuationId) else old(View())
      ensures r.Ok? ==> id in requests && r.value == requests[id]
    {
      hide WellFormed;
      if Taken(View(), id) {
        return Err(SemanticViolation);
      }
      if continuationId !in continuations {
        return Err(KeyError);
      }
      CreateRequestKeepsWellFormed(View(), id, continuationId);
      var q := LogicalRequest(id, continuationId, RequestReady, None, None, None);
      requests := requests[id := q];
      return Ok(q);
    }

    /** One past the largest generation of the request, starting from 1. */
    method NextGeneration(requestId: Id) returns (g: int)
      ensures g == Next(AttemptNumbers(attempts), requestId)
    {
      var largest := 0;
      ghost var m := AttemptNumbers(attempts);
      var todo := attempts.Keys;
      var found := false;
      while todo != {}
        invariant todo <= attempts.Keys
        invariant forall a :: a in m && a !in todo && m[a].0 == requestId ==> found && m[a].1 <= largest
        invariant if found then Handed(m, requestId, largest) else largest == 0
        decreases todo
      {
        var a :| a in todo;
        todo := todo - {a};
        if attempts[a].requestId == requestId && (!found || largest < attempts[a].generation) {
          assert m[a] == (requestId, attempts[a].generation);
          largest, found := attempts[a].generation, true;
        }
      }
      LargestIs(m, requestId, largest);
      g := largest + 1;
    }

    /** The checks `StartAttempt` makes, in order, before it writes anything. */
    method StartError(id: Id, requestId: Id) returns (e: Option<Error>)
      ensures if e.Some? then e.value in StartFaults(View(), id, requestId)
              else StartFaults(View(), id, requestId) == {}
    {
      if Taken(View(), id) {
        return Some(SemanticViolation);
      }
      if requestId !in requests {
        return Some(KeyError);
      }
      var q := requests[requestId];
      if TerminalRequest(q.status) {
        return Some(InvalidTransition);
      }
      if Truthy(q.currentAttemptId) {
        if q.currentAttemptId.value !in attempts {
          return Some(KeyError);
        }
        if attempts[q.currentAttemptId.value].authorityStatus != Current {
          return Some(SemanticViolation);
        }
      }
      return None;
    }

    method StartAttempt(id: Id, requestId: Id) returns (r: Result<Attempt>)
      requires Valid()
      modifies this
      ensures Valid() && Answers(r, StartFaults(old(View()), id, requestId))
      ensures View() == if r.Ok? then AfterStartAttempt(old(View()), id, requestId) else old(View())
      ensures r.Ok? ==> id in attempts && r.value == attempts[id]
    {
      hide WellFormed, Next, AttemptNumbers, Taken, Fence;
      ghost var before := View();
      var refused := StartError(id, requestId);
      if refused.Some? {
        return Err(refused.value);
      }
      AcceptedStartKeepsWellFormed(before, id, requestId);
      var generation := NextGeneration(requestId);
      var a := Attempt(id, requestId, generation, ExecCreated, Current);
      InstallAttempt(a);
      assert View() == AfterStartAttempt(before, id, requestId);
      return Ok(a);
    }

    /** The current attempt of the request is superseded and the new one takes its place. */
    method InstallAttempt(a: Attempt)
      requires a.requestId in requests
      requires Truthy(requests[a.requestId].currentAttemptId) ==>
               requests[a.requestId].currentAttemptId.value in attempts
      modifies this`attempts, this`requests
      ensures attempts == Fence(old(attempts), old(requests[a.requestId].currentAttemptId))[a.id := a]
      ensures requests == old(requests)[a.requestId := old(requests[a.requestId]).(status := RequestRunning,
              currentAttemptId := Some(a.id))]
    {
      var q := requests[a.requestId];
      if Truthy(q.currentAttemptId) {
        attempts := attempts[q.currentAttemptId.value :=
            attempts[q.currentAttemptId.value].(authorityStatus := Superseded)];
      }
      attempts := attempts[a.id := a];
      requests := requests[a.requestId := q.(status := RequestRunning, currentAttemptId := Some(a.id))];
    }

    method SetAttemptExecution(attemptId: Id, status: ExecutionStatus) returns (r: Result<Attempt>)
      requires Valid()
      modifies this
      ensures Valid() && Answers(r, ExecutionFaults(old(View()), attemptId, status))
      ensures View() == if r.Ok? then AfterSetExecution(old(View()), attemptId, status) else old(View())
      ensures r.Ok? ==> attemptId in attempts && r.value == attempts[attemptId]
    {
      hide WellFormed;
      if attemptId !in attempts {
        return Err(KeyError);
      }
      var a := attempts[attemptId];
      if TerminalExecution(a.executionStatus) && status != a.executionStatus {
        return Err(InvalidTransition);
      }
      if !TerminalExecution(a.executionStatus) && !TerminalExecution(status)
         && ExecutionRank(status) < ExecutionRank(a.executionStatus) {
        return Err(InvalidTransition);
      }
      SetExecutionKeepsWellFormed(View(), attemptId, status);
      a := a.(executionStatus := status);
      attempts := attempts[attemptId := a];
      return Ok(a);
    }

    method CompleteAttempt(attemptId: Id, succeeded: bool) returns (r: Result<Attempt>)
      requires Valid()
      modifies this
      ensures Valid() && Answers(r, ExecutionFaults(old(View()), attemptId, SettledExecution(succeeded)))
      ensures View() == if r.Ok? then AfterSetExecution(old(View()), attemptId, SettledExecution(succeeded))
              else old(View())
    {
      hide WellFormed;
      r := SetAttemptExecution(attemptId, SettledExecution(succeeded));
    }

    // ---------- phases ----------

    method NextOrdinal(attemptId: Id) returns (n: int)
      ensures n == Next(PhaseNumbers(phases), attemptId)
    {
      var largest := 0;
      ghost var m := PhaseNumbers(phases);
      var todo := phases.Keys;
      var found := false;
      while todo != {}
        invariant todo <= phases.Keys
        invariant forall p :: p in m && p !in todo && m[p].0 == attemptId ==> found && m[p].1 <= largest
        invariant if found then Handed(m, attemptId, largest) else largest == 0
        decreases todo
      {
        var p :| p in todo;
        todo := todo - {p};
        if phases[p].attemptId == attemptId && (!found || largest < phases[p].ordinal) {
          assert m[p] == (attemptId, phases[p].ordinal);
          largest, found := phases[p].ordinal, true;
        }
      }
      LargestIs(m, attemptId, largest);
      n := largest + 1;
    }

    method CreatePhase(id: Id, attemptId: Id, phaseType: PhaseType, ordinal: Option<int>) returns (r: Result<Phase>)
      requires Valid()
      modifies this
      ensures Valid() && Answers(r, CreatePhaseFaults(old(View()), id, attemptId, ordinal))
      ensures View() == if r.Ok? then AfterCreatePhase(old(View()), id, attemptId, phaseType) else old(View())
      ensures r.Ok? ==> id in phases && r.value == phases[id]
    {
      hide WellFormed;
      if Taken(View(), id) {
        return Err(SemanticViolation);
      }
      if attemptId !in attempts {
        return Err(KeyError);
      }
      var next := NextOrdinal(attemptId);
      if ordinal.Some? && ordinal.value != next {
        return Err(SemanticViolation);
      }
      CreatePhaseKeepsWellFormed(View(), id, attemptId, phaseType);
      var p := Phase(id, attemptId, next, phaseType, PhaseCreated);
      phases := phases[id := p];
      return Ok(p);
    }

    method SetPhaseStatus(phaseId: Id, status: PhaseStatus) returns (r: Result<Phase>)
      requires Valid()
      modifies this
      ensures Valid() && Answers(r, PhaseFaults(old(View()), phaseId, status))
      ensures View() == if r.Ok? then AfterSetPhaseStatus(old(View()), phaseId, status) else old(View())
      ensures r.Ok? ==> phaseId in phases && r.value == phases[phaseId]
    {
      hide WellFormed;
      if phaseId !in phases {
        return Err(KeyError);
      }
      var p := phases[phaseId];
      if TerminalPhase(p.status) && status != p.status {
        return Err(InvalidTransition);
      }
      if status == PhaseCompleted {
        if p.attemptId !in attempts {
          return Err(KeyError);
        }
        if attempts[p.attemptId].authorityStatus == Superseded {
          return Err(SemanticViolation);
        }
      }
      if p.status == PhaseRunning && status == PhaseCreated {
        return Err(InvalidTransition);
      }
      SetPhaseStatusKeepsWellFormed(View(), phaseId, status);
      p := p.(status := status);
      phases := phases[phaseId := p];
      return Ok(p);
    }

    method CompletePhase(phaseId: Id) returns (r: Result<Phase>)
      requires Valid()
      modifies this
      ensures Valid() && Answers(r, PhaseFaults(old(View()), phaseId, PhaseCompleted))
      ensures View() == if r.Ok? then AfterSetPhaseStatus(old(View()), phaseId, PhaseCompleted) else old(View())
    {
      hide WellFormed;
      r := SetPhaseStatus(phaseId, PhaseCompleted);
    }

    // ---------- outputs and finalization ----------

    method CreateOutput(id: Id, attemptId: Id, terminal: bool, evidenceIds: set<Id>) returns (r: Result<Output>)
      requires Valid()
      modifies this
      ensures Valid() && Answers(r, OutputFaults(old(View()), id, attemptId, evidenceIds))
      ensures View() == if r.Ok? then AfterCreateOutput(old(View()), id, attemptId, terminal, evidenceIds)
              else old(View())
      ensures r.Ok? ==> id in outputs && r.value == outputs[id]
    {
      hide WellFormed;
      if Taken(View(), id) {
        return Err(SemanticViolation);
      }
      if attemptId !in attempts {
        return Err(KeyError);
      }
      if !(evidenceIds <= evidence.Keys) {
        return Err(SemanticViolation);
      }
      CreateOutputKeepsWellFormed(View(), id, attemptId, terminal, evidenceIds);
      var o := Output(id, attemptId, terminal, evidenceIds);
      outputs := outputs[id := o];
      return Ok(o);
    }

    method FinalizeRequest(requestId: Id, outputId: Id, now: real) returns (r: Result<LogicalRequest>)
      requires Valid()
      modifies this
      ensures Valid() && Answers(r, FinalizeFaults(old(View()), requestId, outputId, now))
      ensures View() == if r.Ok? && old(requests[requestId].status) != RequestCompleted
                        then AfterFinalize(old(View()), requestId, outputId) else old(View())
      ensures r.Ok? ==> requestId in requests && r.value == requests[requestId]
    {
      hide WellFormed, Sufficient, Eligible, Filter;
      if requestId !in requests || outputId !in outputs || outputs[outputId].attemptId !in attempts {
        return Err(KeyError);
      }
      var q, o := requests[requestId], outputs[outputId];
      var a := attempts[o.attemptId];
      if q.status == RequestCompleted {
        if q.authoritativeOutputId == Some(outputId) {
          return Ok(q);
        }
        return Err(InvalidTransition);
      }
      if TerminalRequest(q.status) {
        return Err(InvalidTransition);
      }
      if Some(o.attemptId) != q.currentAttemptId || a.authorityStatus != Current {
        return Err(SemanticViolation);
      }
      if a.executionStatus != ExecSucceeded || !o.terminal {
        return Err(SemanticViolation);
      }
      var ids := SetToSeq(o.evidenceIds);
      var required := RequireEvidence(evidence, Finalize, ids, now, FinalizeScope(a), None);
      assert IdSet(ids) == o.evidenceIds;
      if required.Err? {
        return Err(required.error);
      }
      FinalizeKeepsWellFormed(View(), requestId, outputId);
      attempts := attempts[o.attemptId := a.(authorityStatus := Committed)];
      q := q.(status := RequestCompleted, currentAttemptId := None, committedAttemptId := Some(o.attemptId),
          authoritativeOutputId := Some(outputId));
      requests := requests[requestId := q];
      return Ok(q);
    }

    // ---------- State ----------

    /**
     One dependency that may not be derived from. With several the iteration order of the frozen set
     picks which error is raised.
     */
    method DependencyError(o: Origin, derivedFrom: set<Id>) returns (e: Option<Error>)
      requires Closed(Parents(continuations)) && o.continuationId in continuations
      ensures if e.Some? then e.value in AnyDependencyFaults(View(), o, derivedFrom)
              else AnyDependencyFaults(View(), o, derivedFrom) == {}
    {
      hide Closed, Parents, Ancestor, PhaseTooLate;
      ghost var c := View();
      var todo := derivedFrom;
      while todo != {}
        invariant todo <= derivedFrom
        invariant forall d :: d in derivedFrom && d !in todo ==> DependencyFaults(c, o, d) == {}
        decreases todo
      {
        var d :| d in todo;
        todo := todo - {d};
        if d !in states {
          assert KeyError in DependencyFaults(c, o, d);
          return Some(KeyError);
        }
        var ancestor := IsAncestor(states[d].originContinuationId, o.continuationId);
        if !ancestor || PhaseTooLate(phases, o.phaseId, o.attemptId, states[d]) {
          assert SemanticViolation in DependencyFaults(c, o, d);
          return Some(SemanticViolation);
        }
      }
      return None;
    }

    /** The checks `CreateState` makes, in order, before it inserts the State; the resolved origin if they pass. */
    method DerivationOrigin(op: Op) returns (r: Result<Origin>)
      requires Valid() && op.CreateState?
      ensures Answers(r, DerivationFaults(View(), op.id, OriginOf(View(), op), op.derivedFrom))
      ensures r.Ok? ==> r == OriginOf(View(), op)
    {
      hide WellFormed, Taken, Closed, Parents, Provenance, AnyDependencyFaults, ResolveOrigin;
      if Taken(View(), op.id) {
        return Err(SemanticViolation);
      }
      r := ResolveOrigin(continuations, requests, attempts, phases, op.originType, op.originId);
      if r.Err? {
        return;
      }
      OriginContinuationExists(View(), op.originType, op.originId);
      WellFormedGraphsClosed(View());
      var refused := DependencyError(r.value, op.derivedFrom);
      if refused.Some? {
        return Err(refused.value);
      }
    }

    method CreateState(id: Id, originType: OriginType, originId: Id, semanticType: string, representation: string,
        derivedFrom: set<Id>)
        returns (r: Result<ReusableState>)
      requires Valid()
      modifies this
      ensures Valid()
      ensures Answers(r, CreateStateFaults(old(View()),
              Op.CreateState(id, originType, originId, semanticType, representation, derivedFrom)))
      ensures View() == if r.Ok? then AfterCreateState(old(View()),
              Op.CreateState(id, originType, originId, semanticType, representation, derivedFrom))
                        else old(View())
      ensures r.Ok? ==> id in states && r.value == states[id]
    {
      hide WellFormed, OriginOf, HasCycle, Refreshed, Closed, Parents, Provenance, DerivationFaults, NewState;
      ghost var before := View();
      var op := Op.CreateState(id, originType, originId, semanticType, representation, derivedFrom);
      var origin := DerivationOrigin(op);
      if origin.Err? {
        return Err(origin.error);
      }
      UnrefusedStateIsNew(before, op, origin.value);
      var x := NewState(origin.value, op);
      var cycle := InsertState(x);
      if cycle {
        return Err(SemanticViolation);
      }
      AcceptedState(before, op);
      RefreshStateLifecycles();
      assert View() == AfterCreateState(before, op);
      return Ok(states[id]);
    }

    /** Inserts a new State, and takes it out again when the provenance then holds a cycle. */
    method InsertState(x: ReusableState) returns (cycle: bool)
      requires x.id !in states
      modifies this`states
      ensures cycle <==> HasCycle(Provenance(old(states)[x.id := x]))
      ensures states == if cycle then old(states) else old(states)[x.id := x]
    {
      states := states[x.id := x];
      cycle := DetectCycle(Provenance(states));
      if cycle {
        states := states - {x.id};
      }
    }

    method SetStateValidity(stateId: Id, validity: StateValidity) returns (r: Result<ReusableState>)
      requires Valid()
      modifies this
      ensures Valid() && Answers(r, ValidityFaults(old(View()), stateId, validity))
      ensures View() == if r.Ok? then AfterSetValidity(old(View()), stateId, validity) else old(View())
      ensures r.Ok? ==> stateId in states && r.value == states[stateId]
    {
      hide WellFormed;
      if stateId !in states {
        return Err(KeyError);
      }
      var x := states[stateId];
      if x.validity == StateInvalid && validity != StateInvalid {
        return Err(InvalidTransition);
      }
      SetValidityKeepsWellFormed(View(), stateId, validity);
      x := x.(validity := validity);
      states := states[stateId := x];
      return Ok(x);
    }

    method StateCompatible(stateId: Id, ctx: ExecutionContext) returns (ok: bool)
      requires Valid()
      ensures ok <==> Compatible(View(), stateId, ctx, semanticValidity)
    {
      if !ContextConsistent(View(), ctx) {
        return false;
      }
      ok := StateCompatibleRecursive(stateId, ctx, {});
    }

    method StateCompatibleRecursive(stateId: Id, ctx: ExecutionContext, visiting: set<Id>) returns (ok: bool)
      requires Valid() && ContextConsistent(View(), ctx)
      ensures ok <==> ClosureFit(View(), stateId, ctx, semanticValidity, visiting)
      decreases states.Keys - visiting
    {
      hide WellFormed, Ancestor, ProducerHasAuthority, ConsumedByLaterPhase;
      if stateId !in states {
        return false;
      }
      hide ClosureFit;
      var x := states[stateId];
      ghost var c := View();
      ClosureFitUnfolds(c, stateId, ctx, semanticValidity, visiting);
      if x.validity != StateValid || stateId in visiting {
        return false;
      }
      WellFormedGraphsClosed(c);
      var ancestor := IsAncestor(x.originContinuationId, ctx.continuationId);
      if !ancestor || !ProducerHasAuthority(View(), x, ctx) || !ConsumedByLaterPhase(View(), x, ctx) {
        return false;
      }
      var todo := x.derivedFrom;
      while todo != {}
        invariant todo <= x.derivedFrom
        invariant forall d :: d in x.derivedFrom && d !in todo ==>
                  ClosureFit(c, d, ctx, semanticValidity, visiting + {stateId})
        decreases todo
      {
        var d :| d in todo;
        todo := todo - {d};
        var fit := StateCompatibleRecursive(d, ctx, visiting + {stateId});
        if !fit {
          return false;
        }
      }
      return semanticValidity(x, ctx);
    }

    method AddReplica(id: Id, stateId: Id, locationId: string, status: ReplicaStatus) returns (r: Result<StateReplica>)
      requires Valid()
      modifies this
      ensures Valid() && Answers(r, UnderFaults(old(View()), id, stateId in old(states)))
      ensures View() == if r.Ok? then AfterAddReplica(old(View()), id, stateId, locationId, status) else old(View())
      ensures r.Ok? ==> id in replicas && r.value == replicas[id]
    {
      hide WellFormed;
      if Taken(View(), id) {
        return Err(SemanticViolation);
      }
      if stateId !in states {
        return Err(KeyError);
      }
      AddReplicaKeepsWellFormed(View(), id, stateId, locationId, status);
      var p := StateReplica(id, stateId, locationId, status, None, None);
      replicas := replicas[id := p];
      return Ok(p);
    }

    method SetReplicaStatus(replicaId: Id, status: ReplicaStatus) returns (r: Result<StateReplica>)
      requires Valid()
      modifies this
      ensures Valid() && Answers(r, KnownFaults(replicaId in old(replicas)))
      ensures View() == if r.Ok? then AfterSetReplicaStatus(old(View()), replicaId, status) else old(View())
      ensures r.Ok? ==> replicaId in replicas && r.value == replicas[replicaId]
    {
      hide WellFormed;
      if replicaId !in replicas {
        return Err(KeyError);
      }
      SetReplicaStatusKeepsWellFormed(View(), replicaId, status);
      var p := replicas[replicaId].(status := status);
      replicas := replicas[replicaId := p];
      return Ok(p);
    }

    method CanConsumeState(stateId: Id, replicaId: Id, ctx: ExecutionContext, evidenceIds: seq<Id>, now: real)
      returns (r: Result<bool>)
      requires Valid()
      ensures r == if replicaId in replicas
                   then Ok(Consumable(View(), stateId, replicaId, ctx, semanticValidity, IdSet(evidenceIds), now))
                   else Err(KeyError)
    {
      if replicaId !in replicas {
        return Err(KeyError);
      }
      if replicas[replicaId].stateId != stateId || replicas[replicaId].status != ReplicaValid {
        return Ok(false);
      }
      hide WellFormed, Compatible, Sufficient;
      var compatible := StateCompatible(stateId, ctx);
      if !compatible {
        return Ok(false);
      }
      var required := RequireEvidence(evidence, ConsumeState, evidenceIds, now, ConsumeScope(stateId, replicaId), None);
      return Ok(required.Ok?);
    }

    // ---------- bindings and migration ----------

    method ProposeBinding(id: Id, subjectId: Id, locationId: string) returns (r: Result<Binding>)
      requires Valid()
      modifies this
      ensures Valid() && Answers(r, FreshFaults(old(View()), id))
      ensures View() == if r.Ok? then AfterPropose(old(View()),
              NewBinding(old(View()), id, subjectId, locationId, Proposed)) else old(View())
      ensures r.Ok? ==> r.value == NewBinding(old(View()), id, subjectId, locationId, Proposed) && id !in old(bindings)
    {
      hide WellFormed;
      if Taken(View(), id) {
        return Err(SemanticViolation);
      }
      ProposeKeepsWellFormed(View(), NewBinding(View(), id, subjectId, locationId, Proposed));
      var base := EpochOf(currentEpoch, subjectId, 0);
      var last := EpochOf(lastAllocated, subjectId, base);
      var epoch := last + 1;
      lastAllocated := lastAllocated[subjectId := epoch];
      var b := Binding(id, subjectId, locationId, base, epoch, Proposed);
      bindings := bindings[id := b];
      return Ok(b);
    }

    method ActivateInitialBinding(id: Id, subjectId: Id, locationId: string) returns (r: Result<Binding>)
      requires Valid()
      modifies this
      ensures Valid() && Answers(r, ActivateFaults(old(View()), id, subjectId))
      ensures View() == if r.Ok? then AfterActivate(old(View()), id, subjectId, locationId) else old(View())
      ensures r.Ok? ==> id in bindings && r.value == bindings[id]
    {
      hide WellFormed, Taken, NewBinding, AfterPropose, AfterActivate, Displaced;
      ghost var before := View();
      if subjectId in currentBinding {
        return Err(InvalidTransition);
      }
      r := ProposeBinding(id, subjectId, locationId);
      if r.Err? {
        return;
      }
      AcceptedActivation(before, id, subjectId, locationId);
      var b := r.value.(status := BindingActive);
      InstallBinding(b);
      assert View() == AfterActivate(before, id, subjectId, locationId);
      return Ok(b);
    }

    method BeginMigration(bindingId: Id) returns (r: Result<Binding>)
      requires Valid()
      modifies this
      ensures Valid() && Answers(r, BeginFaults(old(View()), bindingId))
      ensures View() == if r.Ok? then AfterBegin(old(View()), bindingId) else old(View())
      ensures r.Ok? ==> bindingId in bindings && r.value == bindings[bindingId]
    {
      hide WellFormed;
      BindingKeyed(View(), bindingId);
      if bindingId !in bindings {
        return Err(KeyError);
      }
      var b := bindings[bindingId];
      if b.status != Proposed {
        return Err(InvalidTransition);
      }
      BeginKeepsWellFormed(View(), bindingId);
      b := b.(status := Migrating);
      bindings := bindings[b.id := b];
      return Ok(b);
    }

    /** The checks `CommitMigration` makes, in order, before it writes anything. */
    method CommitError(bindingId: Id, evidenceIds: seq<Id>, now: real) returns (e: Option<Error>)
      requires Valid()
      ensures var faults := CommitFaults(View(), bindingId, evidenceIds, now);
              if e.Some? then e.value in faults else faults == {}
    {
      hide WellFormed, Sufficient, MigrationScope, Offered, IdSet, EpochOf, Displaced;
      if bindingId !in bindings {
        return Some(KeyError);
      }
      var b := bindings[bindingId];
      DisplacedExists(View(), b.subjectId);
      if b.baseEpoch != EpochOf(currentEpoch, b.subjectId, 0) {
        return Some(SemanticViolation);
      }
      if b.status != Proposed && b.status != Migrating {
        return Some(InvalidTransition);
      }
      var required := RequireEvidence(evidence, CommitMigrationAction, evidenceIds, now, MigrationScope(b), None);
      return if required.Err? then Some(required.error) else None;
    }

    method CommitMigration(bindingId: Id, evidenceIds: seq<Id>, now: real) returns (r: Result<Binding>)
      requires Valid()
      modifies this
      ensures Valid() && Answers(r, CommitFaults(old(View()), bindingId, evidenceIds, now))
      ensures View() == if r.Ok? then AfterCommit(old(View()), bindingId) else old(View())
      ensures r.Ok? ==> bindingId in bindings && r.value == bindings[bindingId]
    {
      hide WellFormed, CommitFaults, Displaced, Displace;
      ghost var before := View();
      var refused := CommitError(bindingId, evidenceIds, now);
      if refused.Some? {
        return Err(refused.value);
      }
      AcceptedCommit(before, bindingId, evidenceIds, now);
      var b := bindings[bindingId].(status := BindingActive);
      InstallBinding(b);
      assert View() == AfterCommit(before, bindingId);
      return Ok(b);
    }

    /** The current binding of the subject is superseded and the new one takes its place. */
    method InstallBinding(b: Binding)
      requires Displaced(View(), b.subjectId).Some? ==> Displaced(View(), b.subjectId).value in bindings
      modifies this`bindings, this`currentBinding, this`currentEpoch
      ensures bindings == Displace(old(bindings), Displaced(old(View()), b.subjectId))[b.id := b]
      ensures currentBinding == old(currentBinding)[b.subjectId := b.id]
      ensures currentEpoch == old(currentEpoch)[b.subjectId := b.epoch]
    {
      var displaced := Displaced(View(), b.subjectId);
      if displaced.Some? {
        bindings := bindings[displaced.value := bindings[displaced.value].(status := BindingSuperseded)];
      }
      bindings := bindings[b.id := b];
      currentBinding := currentBinding[b.subjectId := b.id];
      currentEpoch := currentEpoch[b.subjectId := b.epoch];
    }

    // ---------- events and evidence ----------

    method RecordEvent(event: SemanticEvent) returns (r: Result<SemanticEvent>)
      requires Valid()
      modifies this
      ensures Valid() && Answers(r, EventFaults(old(View()), event))
      ensures View() == if r.Ok? && event.id !in old(events) then AfterRecordEvent(old(View()), event) else old(View())
      ensures r.Ok? ==> event.id in events && r.value == events[event.id] == event
    {
      hide WellFormed;
      if event.id in events {
        if events[event.id] == event {
          return Ok(event);
        }
        return Err(SemanticViolation);
      }
      if Taken(View(), event.id) {
        return Err(SemanticViolation);
      }
      RecordEventKeepsWellFormed(View(), event);
      events := events[event.id := event];
      eventOrder := eventOrder + [event.id];
      return Ok(event);
    }

    /** The provenance rules of a new record, checked support by support. */
    method ProvenanceHolds(e: Evidence) returns (ok: bool)
      ensures ok <==> Supported(evidence, e)
    {
      var hasDerivation := e.derivedFrom != {} || Truthy(e.derivationRule);
      if e.authority == Derived {
        if e.derivedFrom == {} || !Truthy(e.derivationRule) {
          return false;
        }
      } else if hasDerivation {
        return false;
      }
      if e.derivedFrom != {} {
        var todo := e.derivedFrom;
        var union: Scope := {};
        var allValid := true;
        while todo != {}
          invariant todo <= e.derivedFrom
          invariant e.derivedFrom - todo <= evidence.Keys
          invariant union == SupportScope(evidence, e.derivedFrom - todo)
          invariant allValid <==> forall s :: s in e.derivedFrom && s !in todo ==> evidence[s].status == EvidenceValid
          decreases todo
        {
          var s :| s in todo;
          if s !in evidence {
            return false;
          }
          assert e.derivedFrom - (todo - {s}) == (e.derivedFrom - todo) + {s};
          todo := todo - {s};
          union := union + evidence[s].scope;
          allValid := allValid && evidence[s].status == EvidenceValid;
        }
        assert e.derivedFrom - todo == e.derivedFrom;
        if !(e.scope <= union) {
          return false;
        }
        if e.status == EvidenceValid && !allValid {
          return false;
        }
      }
      return true;
    }

    method RecordEvidence(e: Evidence) returns (r: Result<Evidence>)
      requires Valid()
      modifies this
      ensures Valid() && Answers(r, EvidenceFaults(old(View()), e))
      ensures View() == if r.Ok? && e.id !in old(evidence) then AfterRecordEvidence(old(View()), e) else old(View())
      ensures r.Ok? ==> e.id in evidence && r.value == evidence[e.id] == e
    {
      hide WellFormed, Supported;
      if e.id in evidence {
        if evidence[e.id] == e {
          return Ok(e);
        }
        return Err(SemanticViolation);
      }
      var supported := ProvenanceHolds(e);
      if !supported || Taken(View(), e.id) {
        return Err(SemanticViolation);
      }
      RecordEvidenceKeepsWellFormed(View(), e);
      evidence := evidence[e.id := e];
      return Ok(e);
    }
  }

  lemma UnrefusedStateIsNew(c: Core, op: Op, o: Origin)
    requires op.CreateState? && DerivationFaults(c, op.id, OriginOf(c, op), op.derivedFrom) == {}
    ensures op.id !in c.states && NewState(o, op).id == op.id
  {
  }

  lemma OriginContinuationExists(c: Core, originType: OriginType, originId: Id)
    requires WellFormed(c)
    ensures var o := ResolveOrigin(c.continuations, c.requests, c.attempts, c.phases, originType, originId);
            o.Ok? ==> o.value.continuationId in c.continuations
  {
    OriginResolves(c, originType, originId);
  }

  lemma AcceptedState(c: Core, op: Op)
    requires WellFormed(c) && op.CreateState? && CreateStateFaults(c, op) == {}
    ensures Closed(Parents(c.continuations)) && WellFormed(AfterCreateState(c, op))
    ensures op.id in AfterCreateState(c, op).states
  {
    WellFormedGraphsClosed(c);
    CreateStateKeepsWellFormed(c, op);
  }

  /** A proposal for a subject without a binding, promoted on the spot. */
  lemma AcceptedActivation(c: Core, id: Id, subject: Id, location: string)
    requires WellFormed(c) && id !in c.bindings && subject !in c.currentBinding
    ensures WellFormed(AfterActivate(c, id, subject, location))
    ensures var p := NewBinding(c, id, subject, location, Proposed);
            var proposed, b := AfterPropose(c, p), p.(status := BindingActive);
            && p.id == id && p.subjectId == subject && Displaced(proposed, subject).None?
            && AfterActivate(c, id, subject, location)
               == proposed.(bindings := proposed.bindings[id := b],
                   currentBinding := proposed.currentBinding[subject := id],
                            currentEpoch := proposed.currentEpoch[subject := b.epoch])
  {
    ActivateKeepsWellFormed(c, id, subject, location);
    var p := NewBinding(c, id, subject, location, Proposed);
    assert c.bindings[id := p][id := p.(status := BindingActive)] == c.bindings[id := p.(status := BindingActive)];
  }

  lemma BindingKeyed(c: Core, b: Id)
    requires WellFormed(c)
    ensures b in c.bindings ==> c.bindings[b].id == b
  {
  }

  lemma AcceptedCommit(c: Core, b: Id, ev: seq<Id>, now: real)
    requires WellFormed(c) && CommitFaults(c, b, ev, now) == {}
    ensures b in c.bindings && c.bindings[b].id == b && WellFormed(AfterCommit(c, b))
    ensures Displaced(c, c.bindings[b].subjectId).Some? ==> Displaced(c, c.bindings[b].subjectId).value in c.bindings
  {
  }

  /** The binding a commit displaces is never missing. */
  lemma DisplacedExists(c: Core, subject: Id)
    requires WellFormed(c)
    ensures Displaced(c, subject).Some? ==> Displaced(c, subject).value in c.bindings
  {
  }

  lemma UnrefusedIsNew(c: Core, id: Id, session: Id, parents: set<Id>)
    ensures ParentageFaults(c, id, session, parents) == {} ==> id !in c.continuations
  {
  }

  lemma AcceptedStartKeepsWellFormed(c: Core, id: Id, r: Id)
    requires WellFormed(c) && StartFaults(c, id, r) == {}
    ensures WellFormed(AfterStartAttempt(c, id, r))
  {
    StartAttemptKeepsWellFormed(c, id, r);
  }

  /** Inserting a continuation under existing parents keeps every parent link resolvable. */
  lemma AcceptedContinuation(c: Core, id: Id, session: Id, parents: set<Id>, life: ContinuationLifecycle)
    requires WellFormed(c) && ContinuationFaults(c, id, session, parents, life) == {}
    ensures Closed(Parents(c.continuations[id := Continuation(id, session, parents, life)]))
    ensures WellFormed(AfterCreateContinuation(c, id, session, parents, life))
  {
    CreateContinuationKeepsWellFormed(c, id, session, parents, life);
    AcceptedParents(c, id, session, parents, life);
    WellFormedGraphsClosed(c);
    hide WellFormed;
  }

  /** A second refresh forgets the first. */
  lemma RefreshAgain(cs: map<Id, Continuation>, earlier: map<Id, Continuation>, ss: map<Id, ReusableState>)
    ensures Refreshed(cs, Refreshed(earlier, ss)) == Refreshed(cs, ss)
  {
  }
}
