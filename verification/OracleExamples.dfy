/** Concrete cores and runs: where the oracle fails, and why it is not an invariant by itself. */
module OracleExamples {
  import opened Entities
  import opened EvidenceGate
  import opened CoreSpec
  import opened Graphs
  import opened Numbering
  import opened StateCompatibility
  import opened Invariant
  import opened RunInvariant
  import opened CoreRuns
  import opened Oracle
  import opened OracleRuns
  import opened CoreTheorems

  /** One program, session, continuation and request, in four calls. */
  function Opening(): seq<Op> {
    [CreateProgram("p"), CreateSession("ss", "p"), CreateContinuation("kkk", "ss", {}, LifeActive),
        CreateRequest("rrrr", "kkk")]
  }

  ghost function Opened(): Core {
    AfterCreateRequest(OpenedContinuation(), "rrrr", "kkk")
  }

  ghost function OpenedContinuation(): Core {
    AfterCreateContinuation(OpenedSession(), "kkk", "ss", {}, LifeActive)
  }

  ghost function OpenedSession(): Core {
    AfterCreateSession(AfterCreateProgram(EmptyCore, "p"), "ss", "p")
  }

  lemma RunExtend(c: Core, ops: seq<Op>, op: Op)
    ensures Run(c, ops + [op]) == Step(Run(c, ops), op)
  {
    assert (ops + [op])[..|ops + [op]| - 1] == ops;
  }

  lemma OpeningStepsOneAndTwo()
    ensures Step(Step(EmptyCore, CreateProgram("p")), CreateSession("ss", "p")) == OpenedSession()
  {
  }

  lemma OpeningStepThree()
    requires Sound(OpenedSession())
    ensures Step(OpenedSession(), CreateContinuation("kkk", "ss", {}, LifeActive)) == OpenedContinuation()
  {
    hide Sound, HasCycle, Refreshed, SessionGraph;
    ContinuationCycleCheckNeverFires(OpenedSession(), "kkk", "ss", {}, LifeActive);
  }

  lemma OpenedHasNoStates()
    ensures OpenedContinuation().states.Keys == {}
  {
  }

  lemma OpeningStepFour()
    ensures Step(OpenedContinuation(), CreateRequest("rrrr", "kkk")) == Opened()
  {
    OpenedHasNoStates();
    hide Refreshed;
  }

  lemma OpeningRuns()
    ensures Run(EmptyCore, Opening()) == Opened() && Sound(Opened())
  {
    hide Sound, Step, OpenedSession, OpenedContinuation, Opened;
    var ops := Opening();
    assert ops == [] + [ops[0]] + [ops[1]] + [ops[2]] + [ops[3]];
    RunExtend(EmptyCore, [], ops[0]);
    RunExtend(EmptyCore, [] + [ops[0]], ops[1]);
    RunExtend(EmptyCore, [] + [ops[0]] + [ops[1]], ops[2]);
    RunExtend(EmptyCore, [] + [ops[0]] + [ops[1]] + [ops[2]], ops[3]);
    EmptyIsSound();
    StepKeepsSound(EmptyCore, ops[0]);
    StepKeepsSound(Step(EmptyCore, ops[0]), ops[1]);
    OpeningStepsOneAndTwo();
    OpeningStepThree();
    OpeningStepFour();
    RunKeepsSound(EmptyCore, ops);
  }

  // ---------- the empty identifier ----------

  /** Two attempts on one request, the first of them called "". */
  function UnnamedRestart(): seq<Op> {
    Opening() + [StartAttempt("", "rrrr")] + [StartAttempt("aaaaa", "rrrr")]
  }

  /** The second start finds a falsy current identifier and supersedes nobody; the oracle refuses the result. */
  lemma UnnamedRestartFailsOracle(valid: SemanticValidity)
    ensures !OracleAccepts(Run(EmptyCore, UnnamedRestart()), valid)
  {
    hide Sound, Fenced, OracleAccepts, Accepted, SlipsFence, Step, Run;
    var ops := UnnamedRestart();
    OpeningRuns();
    RunExtend(EmptyCore, Opening(), StartAttempt("", "rrrr"));
    FirstStart();
    assert ops[..5] == Opening() + [StartAttempt("", "rrrr")];
    SecondStart();
    assert ops[5] == StartAttempt("aaaaa", "rrrr");
    assert SlipsAt(EmptyCore, ops, 5);
    OracleAcceptsRunIffNeverSlips(ops, valid);
  }

  lemma FirstStart()
    ensures Step(Opened(), StartAttempt("", "rrrr")) == AfterStartAttempt(Opened(), "", "rrrr")
  {
    OpenedHasNoStates();
    hide Refreshed, AttemptNumbers;
  }

  lemma SecondStart()
    ensures Accepted(AfterStartAttempt(Opened(), "", "rrrr"), StartAttempt("aaaaa", "rrrr"))
    ensures SlipsFence(AfterStartAttempt(Opened(), "", "rrrr"), StartAttempt("aaaaa", "rrrr"))
  {
    OpenedHasNoStates();
    hide Refreshed, AttemptNumbers;
  }

  /** The Evidence that lets binding "b" be committed at epoch 2. */
  function Grant(): Evidence {
    EvidenceRecord("e", "c", "s", Authoritative, EvidenceValid, 0.0, {("binding", "b"), ("epoch", "2")}, None, None,
        {}, None,
                   None, None)
  }

  /** A migration away from a current binding called "". */
  function UnnamedMigration(): seq<Op> {
    [RecordEvidence(Grant())] + [ActivateInitialBinding("", "ss", "here")] + [ProposeBinding("b", "ss", "there")]
    + [CommitMigration("b", ["e"], 0.0)]
  }

  ghost function Granted(): Core { AfterRecordEvidence(EmptyCore, Grant()) }

  ghost function Activated(): Core { AfterActivate(Granted(), "", "ss", "here") }

  ghost function Proposal(): Core { AfterPropose(Activated(), NewBinding(Activated(), "b", "ss", "there", Proposed)) }

  /** The commit finds a falsy current identifier and supersedes nobody; the oracle refuses the result. */
  lemma UnnamedMigrationFailsOracle(valid: SemanticValidity)
    ensures !OracleAccepts(Run(EmptyCore, UnnamedMigration()), valid)
  {
    hide Sound, Fenced, OracleAccepts, Accepted, SlipsFence, Step, Granted, Activated, Proposal;
    var ops := UnnamedMigration();
    assert ops[..3] == [] + [ops[0]] + [ops[1]] + [ops[2]];
    RunExtend(EmptyCore, [], ops[0]);
    RunExtend(EmptyCore, [] + [ops[0]], ops[1]);
    RunExtend(EmptyCore, [] + [ops[0]] + [ops[1]], ops[2]);
    GrantRecorded();
    UnnamedActivated();
    SuccessorProposed();
    CommitSlips();
    assert SlipsAt(EmptyCore, ops, 3);
    OracleAcceptsRunIffNeverSlips(ops, valid);
  }

  lemma GrantRecorded()
    ensures Step(EmptyCore, RecordEvidence(Grant())) == Granted()
  {
  }

  lemma UnnamedActivated()
    ensures Step(Granted(), ActivateInitialBinding("", "ss", "here")) == Activated()
  {
  }

  lemma SuccessorProposed()
    ensures Step(Activated(), ProposeBinding("b", "ss", "there")) == Proposal()
  {
  }

  lemma ProposalIs()
    ensures var c := Proposal();
            && "" in c.bindings && "b" in c.bindings && c.bindings["b"] == Binding("b", "ss", "there", 1, 2, Proposed)
            && c.evidence == map["e" := Grant()] && c.currentBinding == map["ss" := ""] &&
               c.currentEpoch == map["ss" := 1]
  {
  }

  lemma GrantSuffices()
    ensures Sufficient(Offered(map["e" := Grant()], IdSet(["e"])), CommitMigrationAction, 0.0,
            {("binding", "b"), ("epoch", "2")}, None)
    ensures Decimal(2) == "2"
  {
    assert "e" in IdSet(["e"]);
    var offered := Offered(map["e" := Grant()], IdSet(["e"]));
    assert Grant() in offered && forall x :: x in offered ==> x == Grant();
  }

  lemma CommitSlips()
    ensures Accepted(Proposal(), CommitMigration("b", ["e"], 0.0))
    ensures SlipsFence(Proposal(), CommitMigration("b", ["e"], 0.0))
  {
    hide Proposal, Sufficient, Decimal, Grant, StructureFaults, WorkFaults, StateFaults;
    ProposalIs();
    GrantSuffices();
  }

  // ---------- the oracle alone is not an invariant ----------

  /** An epoch recorded for a subject that owns no binding: nothing in the oracle looks at it. */
  ghost function StrayEpoch(): Core {
    EmptyCore.(currentEpoch := map["s" := 5])
  }

  lemma StrayEpochIsAccepted(valid: SemanticValidity)
    ensures OracleAccepts(StrayEpoch(), valid)
  {
    hide HasCycle, GlobalIdentityUniqueness, ParentScopes, AttemptAuthorityCheck, AttemptGenerations,
        RequestCommitConsistency,
         ContinuationDags, PhaseOrdering, StateProvenance, ReplicaIntegrity, StateValidityCheck, Sound, NumbersStand,
         BindingAuthority, BindingGenerations, EvidenceDerivation, EventIdentity, OutputIntegrity;
    StrayEpochIdentity();
    StrayEpochWork();
    StrayEpochStates(valid);
    StrayEpochRecords();
  }

  lemma StrayEpochRecords()
    ensures var c := StrayEpoch();
            BindingAuthority(c) && BindingGenerations(c) && EvidenceDerivation(c) && EventIdentity(c) &&
                OutputIntegrity(c)
  {
  }

  lemma StrayEpochWork()
    ensures var c := StrayEpoch();
            && ParentScopes(c) && AttemptAuthorityCheck(c) && AttemptGenerations(c) && RequestCommitConsistency(c) &&
               PhaseOrdering(c)
  {
    hide AttemptNumbers, PhaseNumbers, Contiguous;
  }

  lemma StrayEpochStates(valid: SemanticValidity)
    requires !HasCycle(Provenance(EmptyCore.states))
    ensures var c := StrayEpoch();
            ContinuationDags(c) && StateProvenance(c) && ReplicaIntegrity(c) && StateValidityCheck(c, valid)
  {
    hide HasCycle, Provenance, SessionGraph, Ancestor, Compatible;
  }

  lemma StrayEpochIdentity()
    ensures GlobalIdentityUniqueness(StrayEpoch()) && EmptyCore.attempts == map[] && EmptyCore.phases == map[]
    ensures !HasCycle(Parents(EmptyCore.continuations)) && !HasCycle(Provenance(EmptyCore.states))
    ensures NumbersStand(AttemptNumbers(EmptyCore.attempts)) && NumbersStand(PhaseNumbers(EmptyCore.phases))
  {
    EmptyIsSound();
    hide HasCycle, Parents, Provenance, AttemptNumbers, PhaseNumbers, NumbersStand, Only, InUse;
  }

  /** Proposing a binding for that subject is accepted and leaves a core the oracle refuses. */
  lemma OracleIsNotInductive(valid: SemanticValidity)
    ensures exists c, op :: OracleAccepts(c, valid) && !OracleAccepts(Step(c, op), valid)
  {
    hide OracleAccepts, Step;
    StrayEpochIsAccepted(valid);
    ProposalExposesStrayEpoch(valid);
  }

  lemma ProposalExposesStrayEpoch(valid: SemanticValidity)
    ensures !OracleAccepts(Step(StrayEpoch(), ProposeBinding("b", "s", "here")), valid)
  {
    var c := StrayEpoch();
    var op := ProposeBinding("b", "s", "here");
    var c' := AfterPropose(c, NewBinding(c, "b", "s", "here", Proposed));
    assert Step(c, op) == c';
    hide Step, GlobalIdentityUniqueness, ParentScopes, AttemptAuthorityCheck, AttemptGenerations,
        RequestCommitConsistency, ContinuationDags,
         PhaseOrdering, StateProvenance, ReplicaIntegrity, BindingAuthority, EvidenceDerivation, EventIdentity,
             OutputIntegrity, StateValidityCheck;
    assert "b" in c'.bindings && c'.bindings["b"].subjectId == "s";
    assert !EpochInUse(c', "s", 5);
    assert !SubjectEpochs(c', "s");
  }
}
