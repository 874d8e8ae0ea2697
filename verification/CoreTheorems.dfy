/** Consequences of the run invariant: caches, cycle checks and the evidence behind completed requests. */
module CoreTheorems {
  import opened Entities
  import opened EvidenceGate
  import opened CoreSpec
  import opened Graphs
  import opened Invariant
  import opened RunInvariant
  import opened StateSteps
  import opened CoreRuns

  // ---------- derived lifecycles ----------

  function LifecycleRank(s: StateLifecycle): nat {
    match s
    case Active => 3
    case Waiting => 2
    case Speculative => 1
    case Terminal => 0
  }

  /** What one descendant contributes to the retention class of a State. */
  function Contribution(l: ContinuationLifecycle): nat {
    if l == LifeActive then 3 else if l == LifeWaiting then 2 else if l == LifeSpeculative then 1 else 0
  }

  /**
   The stored lifecycle of every State in every reachable core is the maximum contribution of the
   descendants of its origin: none contributes more, and unless it is TERMINAL one contributes as much.
   */
  lemma StoredLifecycleIsMaximum(ops: seq<Op>, s: Id)
    requires s in Run(EmptyCore, ops).states
    ensures var c := Run(EmptyCore, ops); var x := c.states[s];
            && (forall d :: d in c.continuations && Ancestor(c.continuations, x.originContinuationId, d) ==>
                  Contribution(c.continuations[d].lifecycle) <= LifecycleRank(x.lifecycle))
            && (x.lifecycle != Terminal ==>
                  exists d :: d in c.continuations && Ancestor(c.continuations, x.originContinuationId, d)
                              && Contribution(c.continuations[d].lifecycle) == LifecycleRank(x.lifecycle))
  {
    var c := Run(EmptyCore, ops);
    assert Coherent(c.continuations, c.states) by {
      EmptyIsSound();
      RunKeepsSound(EmptyCore, ops);
    }
    hide Run;
  }

  // ---------- the two rollback branches ----------

  /** Creating a continuation is rejected only for its identifier, its session or a parent, never for a cycle. */
  lemma ContinuationCycleCheckNeverFires(c: Core, id: Id, session: Id, parents: set<Id>, life: ContinuationLifecycle)
    requires Sound(c) && !Taken(c, id) && forall p :: p in parents ==> p in c.continuations
    ensures !HasCycle(SessionGraph(c.continuations[id := Continuation(id, session, parents, life)], session))
  {
    WellFormedGraphsClosed(c);
    var k := Continuation(id, session, parents, life);
    NewContinuationExtends(c.continuations, k);
    hide Sound;
    var cs := c.continuations[id := k];
    if HasCycle(SessionGraph(cs, session)) {
      AcyclicMono(SessionGraph(cs, session), Parents(cs));
    }
  }

  /** Creating a State is never rejected for a provenance cycle. */
  lemma ProvenanceCycleCheckNeverFires(c: Core, op: Op)
    requires Sound(c) && op.CreateState? && !Taken(c, op.id) && op.derivedFrom <= c.states.Keys && OriginOf(c, op).Ok?
    ensures !HasCycle(Provenance(c.states[op.id := NewState(OriginOf(c, op).value, op)]))
  {
    WellFormedGraphsClosed(c);
    NewStateExtends(c, op);
  }

  // ---------- evidence behind a completed request ----------

  /**
   Every COMPLETED request of every run: its output names only recorded Evidence, none of it
   AMBIGUOUS, and some VALID Evidence that is not DERIVED and is scoped to the committed attempt.
   */
  lemma CompletedOutputsAreBacked(ops: seq<Op>, r: Id)
    requires var c := Run(EmptyCore, ops); r in c.requests && c.requests[r].status == RequestCompleted
    ensures var c := Run(EmptyCore, ops);
            && c.requests[r].authoritativeOutputId.Some? && c.requests[r].authoritativeOutputId.value in c.outputs
            && c.requests[r].committedAttemptId.Some?
            && Backed(c.outputs[c.requests[r].authoritativeOutputId.value], c.requests[r].committedAttemptId.value,
               c.evidence)
  {
    var c := Run(EmptyCore, ops);
    RequestsStandInRuns(ops);
    assert RequestStands(c.requests[r], c.attempts, c.outputs);
    hide Run;
    var o := c.outputs[c.requests[r].authoritativeOutputId.value];
    assert PassedGate(o, c.evidence);
    PassedIsBacked(o, c.evidence);
  }

  lemma RequestsStandInRuns(ops: seq<Op>)
    ensures var c := Run(EmptyCore, ops);
            RequestsStand(c.requests, c.attempts, c.outputs) && CompletedGated(c.requests, c.outputs, c.evidence)
  {
    EmptyIsSound();
    RunKeepsSound(EmptyCore, ops);
  }

  ghost predicate Backed(o: Output, attempt: Id, evidence: map<Id, Evidence>) {
    && o.evidenceIds <= evidence.Keys
    && (forall e :: e in o.evidenceIds ==> evidence[e].status != Ambiguous)
    && exists e :: e in o.evidenceIds && ("attempt", attempt) in evidence[e].scope
                   && evidence[e].status == EvidenceValid && evidence[e].authority in {ExactObservation, Authoritative}
  }

  lemma PassedIsBacked(o: Output, evidence: map<Id, Evidence>)
    requires PassedGate(o, evidence)
    ensures Backed(o, o.attemptId, evidence)
  {
    var scope := {("attempt", o.attemptId)};
    var now :| Sufficient(Offered(evidence, o.evidenceIds), Finalize, now, scope, None);
    SufficientMeans(Offered(evidence, o.evidenceIds), Finalize, now, scope, None);
    hide Sufficient;
    forall i | i in o.evidenceIds ensures evidence[i].status != Ambiguous {
      assert evidence[i] in Offered(evidence, o.evidenceIds);
    }
    var e :| e in Offered(evidence, o.evidenceIds) && scope <= e.scope && e.status == EvidenceValid &&
        e.authority in {ExactObservation, Authoritative};
    var i :| i in o.evidenceIds && i in evidence && evidence[i] == e;
    assert ("attempt", o.attemptId) in scope;
  }
}
