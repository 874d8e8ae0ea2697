/**
 Replay and the clock: which calls depend on the time they are made at, and why the replay of a log that was
 loaded is the same at any time and on any host.
 */
module ReplayClock {
  import opened Entities
  import opened Sorting
  import opened EvidenceGate
  import opened CoreSpec
  import opened OperationRecords
  import opened ReplayFold
  import C = Codec

  /** The name a call is logged under. */
  function ActionOf(op: Op): string {
    match op
    case CreateProgram(_) => "create_program"
    case SetProgramStatus(_, _) => "set_program_status"
    case CreateSession(_, _) => "create_session"
    case CreateContinuation(_, _, _, _) => "create_continuation"
    case SetContinuationLifecycle(_, _) => "set_continuation_lifecycle"
    case ResumeAfterWait(_, _) => "resume_after_wait"
    case CreateRequest(_, _) => "create_request"
    case StartAttempt(_, _) => "start_attempt"
    case SetAttemptExecution(_, _) => "set_attempt_execution"
    case CompleteAttempt(_, _) => "complete_attempt"
    case CreatePhase(_, _, _, _) => "create_phase"
    case SetPhaseStatus(_, _) => "set_phase_status"
    case CompletePhase(_) => "complete_phase"
    case CreateOutput(_, _, _, _) => "create_output"
    case FinalizeRequest(_, _, _) => "finalize_request"
    case CreateState(_, _, _, _, _, _) => "create_state"
    case SetStateValidity(_, _) => "set_state_validity"
    case AddReplica(_, _, _, _) => "add_replica"
    case SetReplicaStatus(_, _) => "set_replica_status"
    case ProposeBinding(_, _, _) => "propose_binding"
    case ActivateInitialBinding(_, _, _) => "activate_initial_binding"
    case BeginMigration(_) => "begin_migration"
    case CommitMigration(_, _, _) => "commit_migration"
    case RecordEvidence(_) => "record_evidence"
    case RecordEvent(_) => "record_event"
  }

  /** The same call at another time; most calls take none. */
  function AtTime(op: Op, t: real): Op {
    match op
    case FinalizeRequest(r, o, _) => FinalizeRequest(r, o, t)
    case CommitMigration(b, offered, _) => CommitMigration(b, offered, t)
    case _ => op
  }

  /** A record may name exactly the 25 operations. */
  lemma ActionsAreTheOperations(action: string)
    ensures AllowedAction(action) <==> exists op :: ActionOf(op) == action
  {
    if AllowedAction(action) {
      var op := SomeCall(action);
    }
  }

  lemma SomeCall(action: string) returns (op: Op)
    requires AllowedAction(action)
    ensures ActionOf(op) == action
  {
    hide ActionOf;
    if action in {"create_program", "set_program_status", "create_session", "create_continuation",
                  "set_continuation_lifecycle", "resume_after_wait", "create_request"} {
      op := StructureCall(action);
      return;
    }
    if action in {"start_attempt", "set_attempt_execution", "complete_attempt", "create_phase", "set_phase_status",
                  "complete_phase", "create_output", "finalize_request"} {
      op := WorkCall(action);
      return;
    }
    if action in {"create_state", "set_state_validity", "add_replica", "set_replica_status"} {
      op := StateCall(action);
      return;
    }
    op := RecordCall(action);
  }

  lemma StructureCall(action: string) returns (op: Op)
    requires action in {"create_program", "set_program_status", "create_session", "create_continuation",
                        "set_continuation_lifecycle", "resume_after_wait", "create_request"}
    ensures ActionOf(op) == action
  {
    if action == "create_program" { return CreateProgram(""); }
    if action == "set_program_status" { return SetProgramStatus("", ProgramCreated); }
    if action == "create_session" { return CreateSession("", ""); }
    if action == "create_continuation" { return CreateContinuation("", "", {}, LifeActive); }
    if action == "set_continuation_lifecycle" { return SetContinuationLifecycle("", LifeActive); }
    if action == "resume_after_wait" { return ResumeAfterWait("", ""); }
    return CreateRequest("", "");
  }

  lemma WorkCall(action: string) returns (op: Op)
    requires action in {"start_attempt", "set_attempt_execution", "complete_attempt", "create_phase",
                        "set_phase_status", "complete_phase", "create_output", "finalize_request"}
    ensures ActionOf(op) == action
  {
    if action == "start_attempt" { return StartAttempt("", ""); }
    if action == "set_attempt_execution" { return SetAttemptExecution("", ExecCreated); }
    if action == "complete_attempt" { return CompleteAttempt("", true); }
    if action == "create_phase" { return CreatePhase("", "", Prefill, None); }
    if action == "set_phase_status" { return SetPhaseStatus("", PhaseCreated); }
    if action == "complete_phase" { return CompletePhase(""); }
    if action == "create_output" { return CreateOutput("", "", true, {}); }
    return FinalizeRequest("", "", 0.0);
  }

  lemma StateCall(action: string) returns (op: Op)
    requires action in {"create_state", "set_state_validity", "add_replica", "set_replica_status"}
    ensures ActionOf(op) == action
  {
    if action == "create_state" { return CreateState("", FromRequest, "", "", "", {}); }
    if action == "set_state_validity" { return SetStateValidity("", StateValid); }
    if action == "add_replica" { return AddReplica("", "", "", ReplicaValid); }
    return SetReplicaStatus("", ReplicaValid);
  }

  lemma RecordCall(action: string) returns (op: Op)
    requires action in {"propose_binding", "activate_initial_binding", "begin_migration", "commit_migration",
                        "record_evidence", "record_event"}
    ensures ActionOf(op) == action
  {
    if action == "propose_binding" { return ProposeBinding("", "", ""); }
    if action == "activate_initial_binding" { return ActivateInitialBinding("", "", ""); }
    if action == "begin_migration" { return BeginMigration(""); }
    if action == "commit_migration" { return CommitMigration("", [], 0.0); }
    if action == "record_evidence" { return RecordEvidence(Expiring({})); }
    return RecordEvent(SemanticEvent("", "", "", "", {}));
  }

  // ---------- which calls depend on the time ----------

  /** Exactly the time-sensitive actions have a call whose outcome depends on when it is made. */
  lemma TimeMattersExactly(action: string)
    requires AllowedAction(action)
    ensures TimeSensitive(action) <==>
              exists op, c, t, u :: ActionOf(op) == action && Faults(c, AtTime(op, t)) != Faults(c, AtTime(op, u))
  {
    hide Faults;
    if TimeSensitive(action) {
      if action == "finalize_request" {
        FinalizationDependsOnTime();
      } else {
        CommitDependsOnTime();
      }
    } else {
      forall op, t, u | ActionOf(op) == action ensures AtTime(op, t) == AtTime(op, u) {
      }
    }
  }

  /** Evidence that expires at 1. */
  function Expiring(scope: Scope): Evidence {
    EvidenceRecord("e", "claim", "source", ExactObservation, EvidenceValid, 0.0, scope, Some(1.0), None, {}, None, None,
        None)
  }

  lemma ExpiringGate(action: EvidenceAction, scope: Scope, ids: set<Id>)
    requires action in {Finalize, CommitMigrationAction} && ids == {"e"}
    ensures var offered := Offered(map["e" := Expiring(scope)], ids);
            Sufficient(offered, action, 0.0, scope, None) && !Sufficient(offered, action, 2.0, scope, None)
  {
    var offered := Offered(map["e" := Expiring(scope)], ids);
    assert offered == {Expiring(scope)};
    GateOverFields(offered, action, 0.0, scope, None);
    GateOverFields(offered, action, 2.0, scope, None);
    assert Usable(Expiring(scope), true, 0.0, None);
  }

  lemma FinalizationDependsOnTime()
    ensures exists op, c, t, u ::
              ActionOf(op) == "finalize_request" && Faults(c, AtTime(op, t)) != Faults(c, AtTime(op, u))
  {
    var attempt := Attempt("a", "r", 1, ExecSucceeded, Current);
    var c := EmptyCore.(
      requests := map["r" := LogicalRequest("r", "k", RequestRunning, Some("a"), None, None)],
      attempts := map["a" := attempt], outputs := map["o" := Output("o", "a", true, {"e"})],
      evidence := map["e" := Expiring(FinalizeScope(attempt))]);
    var op := FinalizeRequest("r", "o", 0.0);
    ExpiringGate(Finalize, FinalizeScope(attempt), {"e"});
    hide Sufficient, Offered, Expiring;
    assert Faults(c, AtTime(op, 0.0)) == {} && Faults(c, AtTime(op, 2.0)) == {InsufficientEvidence};
  }

  lemma CommitDependsOnTime()
    ensures exists op, c, t, u ::
              ActionOf(op) == "commit_migration" && Faults(c, AtTime(op, t)) != Faults(c, AtTime(op, u))
  {
    var binding := Binding("b", "s", "here", 0, 1, Proposed);
    var c := EmptyCore.(bindings := map["b" := binding], evidence := map["e" := Expiring(MigrationScope(binding))]);
    var op := CommitMigration("b", ["e"], 0.0);
    assert IdSet(["e"]) == {"e"};
    ExpiringGate(CommitMigrationAction, MigrationScope(binding), IdSet(["e"]));
    hide Sufficient, Offered, Expiring, MigrationScope;
    assert Faults(c, AtTime(op, 0.0)) == {} && Faults(c, AtTime(op, 2.0)) == {InsufficientEvidence};
  }

  // ---------- replaying a loaded log ----------

  /** How a call's arguments become the call: the method of that name, with the explicit time if there is one. */
  type Caller = (string, Kwargs) -> Op

  /** It calls the method the action names. */
  ghost predicate NamesItsCalls(caller: Caller) {
    forall action, kwargs: Kwargs :: AllowedAction(action) ==> ActionOf(caller(action, kwargs)) == action
  }

  /** The call a logged operation makes when the clock reads `clock`; an absent or null time is read from it. */
  function Dispatched(o: SemanticOperation, caller: Caller, clock: real): Op {
    var kwargs := KwargsOf(o.arguments);
    var call := caller(o.action, kwargs);
    if "now" in kwargs && kwargs["now"] != C.Null then call else AtTime(call, clock)
  }

  /** A loaded operation makes the same call whatever the clock reads. */
  lemma LoadedCallIgnoresClock(record: C.Json, binds: Binder, h: Host, caller: Caller, t: real, u: real)
    requires Regular(h) && OperationFromRecord(record, binds, h).Ok? && NamesItsCalls(caller)
    ensures var o := OperationFromRecord(record, binds, h).value;
            Dispatched(o, caller, t) == Dispatched(o, caller, u)
  {
    ReplayNeverReadsTheClock(record, binds, h);
    var o := OperationFromRecord(record, binds, h).value;
    assert AllowedAction(o.action);
    hide OperationFromRecord, AllowedAction, KwargsOf;
    assert ActionOf(caller(o.action, KwargsOf(o.arguments))) == o.action;
  }

  /** The calls of a log, the i-th made when the clock reads `clock(i)`. */
  function Logged(log: seq<SemanticOperation>, caller: Caller, clock: nat -> real): (r: seq<Operation>)
    ensures |r| == |log|
    ensures forall i :: 0 <= i < |log| ==> r[i] == Operation(log[i].id, Dispatched(log[i], caller, clock(i)))
  {
    seq(|log|, i requires 0 <= i < |log| => Operation(log[i].id, Dispatched(log[i], caller, clock(i))))
  }

  /** Two replays of one loaded log under any two clocks end in the same core, with the same outcome. */
  lemma ReplayIgnoresClock(records: seq<C.Json>, log: seq<SemanticOperation>, binds: Binder, h: Host, caller: Caller,
      clock: nat -> real, other: nat -> real, c: Core)
    requires Regular(h) && NamesItsCalls(caller) && |log| == |records|
    requires forall i :: 0 <= i < |records| ==> OperationFromRecord(records[i], binds, h) == Ok(log[i])
    ensures ReplayFrom(c, Logged(log, caller, clock), {}) == ReplayFrom(c, Logged(log, caller, other), {})
  {
    hide OperationFromRecord, Dispatched, ReplayFrom, NamesItsCalls;
    forall i | 0 <= i < |log| ensures Logged(log, caller, clock)[i] == Logged(log, caller, other)[i] {
      LoadedCallIgnoresClock(records[i], binds, h, caller, clock(i), other(i));
    }
    assert Logged(log, caller, clock) == Logged(log, caller, other);
  }
}
