# Continuity core, retention engine, scheduler and components

This project models the repository's semantic kernel and its cache simulator in Dafny 4.11, and proves
what they promise for all inputs and all runs. `dafny verify dfyconfig.toml` checks everything; one
module per file, named after what it holds.

**The continuity core** (`continuity/`). A single-authority state machine over twelve entity maps, an
event order and three maps per subject. `CoreSpec` gives every operation twice over one value type:
the set of errors it can raise in a state, and the state after it. `ContinuityCore` is the class itself,
with the same fields and loops, each method proved against that specification: a rejected call raises
one of those errors and changes no field. `Invariant`, `RunInvariant` and the `*Steps` files hold the
inductive invariant; `Oracle` is the authors' own independent oracle; `OracleRuns` connects the two;
`Fencing`, `StateCompatibility` and `CoreTheorems` prove what holds over whole runs. `EvidenceGate` is
the tightened gate of `continuity/core.py`; `EvidenceRuns` follows accepted decisions back to unexpired
Evidence, `Isolation` says whose States a context may use, `Progress` and `StateCreation` what exactly is
accepted, and `OracleFacts` what the oracle's acceptance means for any core at all, reached or restored.

**Codec and replay** (`continuity/serialization.py`, `continuity/replay.py`). `Codec` is the tagged
encoding of an inductive value type; `Images`, `Readers`, `Snapshot` and `Restore` turn a core into such a
value and back; `EventLog`, `OperationRecords`, `Replay` and `Checkpoint` cover the event log, serialized
operations, replay as a fold, and cutting a replay with a snapshot. `ReplayClock` shows that a loaded log
never depends on the clock, `FieldsByName` which field stands where in a snapshot.

**The retention engine** (`experiments/c73_retention_*.py`, `c73c_protocol.py`). `RetentionModel` and
`RetentionRuns` specify one run under LRU, FIXED_TTL, SESSION_PINNING or LIFECYCLE_B4; `LiveRetention` is
the class with its loops, proved to follow that specification. The other `Retention*` files prove
termination and exact timing, capacity, what each policy keeps, releases, serves and evicts, the ground
truth and working set, the counters and the audit trail, conservation of byte-seconds, LRU inclusion, and
optimality of B4 on the branch programs that `BranchProgram` builds.

**Two algorithms.** `Scheduler` is the slot scheduler of `experiments/c72_routing_reuse.py`;
`Components` is the connected-component search in its stack and its queue form.

## What turned out false of the code

The code is modelled as it is. In each case there is a concrete input on which the promised property
fails and the exact condition under which it holds.

- *Every run satisfies the oracle.* `start_attempt` and `commit_migration` test the identifier of what they
  supersede for truth, and the empty string is false: an attempt or binding named `""` is displaced
  without being superseded. `OracleAcceptsRunIffNeverSlips` states the exact condition, a run without such a
  call, and `UnnamedRestartFailsOracle` and `UnnamedMigrationFailsOracle` give runs that fail. Snapshots restore
  under the same condition.
- *No audit record shows an overcommit.* The engine raises instead, when an ADMIT is skipped or refused while
  an earlier ADMIT of the same instant has left the cache over capacity. `RaisesExactlyWhenOvertaken` states
  this for all programs, `CrowdedRaises` gives one; programs with one ADMIT per instant never raise.
- *Reconciliation agrees with the gate.* For each of the two advisory actions, RANK_ENDPOINT and ESTIMATE_REUSE,
  an offer can pass the gate and be reconciled as AMBIGUOUS (`AdvisoryGap`). `MatchedAgreesExactly` states for
  every action and offer when the two agree: unless the action is advisory, the offer holds an AMBIGUOUS item or
  a conflict, and some eligible item covers the scope.
- *A checkpoint is invisible to a replay.* The snapshot does not hold the operation identifiers already seen, so
  a repetition across the cut goes unnoticed (`RepeatedIdentifierExample`): the uncut replay completes exactly
  when the cut one does and the parts share no identifier (`CutForgetsIdentifiers`).
- *A larger LRU cache never reuses less.* An ADMIT of a State that only the larger cache still holds is skipped
  there and refreshes the State in the smaller one, which can end in fewer hits with more capacity
  (`RepeatedAdmitBreaksInclusion`). Such a late ADMIT lasts unless as many later ADMITs of its instant as the
  smaller cache has slots are accepted after it. `InclusionIffNoneLasts` states for all programs that inclusion
  holds exactly as long as no late ADMIT lasts; then more capacity never costs a hit (`LargerLruReusesMore`), in
  particular when each State is admitted once (`OneAdmitNeverLasts`).

## How exceptions, order and time are modelled

Exceptions are `Result` values over the repository's error classes. Where the source iterates a frozenset
and several errors are possible, the specification gives the set of errors that some order can raise, and a
method may raise any of them. Clocks are parameters. Times, seconds and byte-seconds are reals. In the
retention class a raised exception is a returned `false`, after which the object is not looked at again.
Names are strings with an arbitrary total order supplied by the host, which also supplies the iteration
order of sets.

## Model

| member | source | states |
|---|---|---|
| OracleRuns.OracleAcceptsRunIffNeverSlips | continuity/invariants.py:27-283 | all fifteen oracle checks hold after a run of any calls from the empty core, rejected ones included, if and only if no accepted call of the run restarted a request whose current attempt has the empty identifier or displaced a current binding with the empty identifier |
| OracleRuns.OracleIffFenced | continuity/invariants.py:27-42 | on every state the inductive invariant admits, the fifteen checks together are equivalent to the two fencing conditions, so thirteen of them can never fail |
| OracleRuns.StepMovesFence | continuity/core_base.py:129-143 | one step keeps the fencing conditions exactly when it is not one of the two slips, and a lost fence is never regained |
| OracleRuns.NamedRunsSatisfyOracle | continuity/core_base.py:51-472 | every run in which no attempt or binding is given the empty identifier ends in a state the oracle accepts |
| CoreRuns.RunKeepsSound | continuity/core_base.py:51-472 | the strengthened invariant holds after every run of the 25 operations from any state that has it |
| OracleExamples.UnnamedRestartFailsOracle | continuity/core_base.py:129-143 | a concrete run of accepted calls, restarting a request over an attempt named with the empty string, ends in a state the oracle rejects |
| OracleExamples.UnnamedMigrationFailsOracle | continuity/core_base.py:414-430 | a concrete run of accepted calls, committing a migration over a current binding named with the empty string, ends in a state the oracle rejects |
| OracleExamples.OracleIsNotInductive | continuity/invariants.py:226-237 | the oracle alone is not an invariant: it accepts a state that an accepted call leads out of |
| OracleLoops.CheckIdentities | continuity/invariants.py:59-64 | the nested loop with one set of seen identifiers accepts exactly the collections in which every entity sits under its own identifier and no identifier occurs twice |
| OracleLoops.CheckGlobalIdentityUniqueness | continuity/invariants.py:44-64 | run over the twelve collections of a core, that loop decides the identity check as the oracle states it |
| OracleLoops.CheckBindingGenerations | continuity/invariants.py:226-237 | grouping bindings by subject in a dictionary and checking each group decides: epochs above their base, no epoch twice per subject, the last allocated one the largest, the current one in use |
| CoreTheorems.ContinuationCycleCheckNeverFires | continuity/core_base.py:80-84 | on reachable states the tentative insertion of a continuation never closes a cycle, so its rollback is dead code |
| CoreTheorems.ProvenanceCycleCheckNeverFires | continuity/core_base.py:245-247 | on reachable states the tentative insertion of a State never closes a provenance cycle, so its rollback is dead code |
| CoreTheorems.StoredLifecycleIsMaximum | continuity/core_base.py:291-304 | after every run each stored State lifecycle bounds the contribution of every descendant of its origin and, unless TERMINAL, is attained by one |
| CoreTheorems.CompletedOutputsAreBacked | continuity/core_base.py:204-220 | after every run the output of a COMPLETED request names no AMBIGUOUS Evidence and some VALID non-DERIVED Evidence of at least EXACT_OBSERVATION authority scoped to the committed attempt |
| Fencing.StepEvolves | continuity/core_base.py:51-472 | what no single call can undo: authority only moves forward, completed requests are frozen, epochs only rise, provenance, evidence and event order only grow |
| Fencing.RunEvolves | continuity/core_base.py:51-472 | the same over every run |
| Fencing.SupersededForever | continuity/core_base.py:129-158 | a SUPERSEDED attempt stays SUPERSEDED and is never again the current or committed attempt of any request, whatever is called later |
| Fencing.CompletedForever | continuity/core_base.py:204-220 | a COMPLETED request, its committed attempt and its terminal output stay what they are through every later run |
| Fencing.AuthorityIsNewestAndUnique | continuity/core_base.py:129-143 | while the fence holds, the CURRENT or COMMITTED attempt of a request has a higher generation than all its others, and all those are SUPERSEDED |
| Fencing.EpochRisesWithBinding | continuity/core_base.py:414-430 | over any run the current epoch of a subject never falls, its current binding never disappears, and a changed binding means a strictly larger epoch |
| Fencing.OneActivationPerBase | continuity/core_base.py:390-430 | two bindings of one subject with the same base epoch cannot both be ACTIVE at any two moments of a run |
| Fencing.StaleForever | continuity/core_base.py:414-430 | a candidate whose base epoch the subject has left stays stale through every later run, and committing it is refused for every evidence and time |
| Fencing.SupersededBindingForever | continuity/core_base.py:414-430 | a SUPERSEDED binding keeps that status and is never current again |
| Fencing.BlockedForever | continuity/core_base.py:328-368 | an INVALID State, or one with a SUPERSEDED producer, anywhere in the provenance closure of a State makes it incompatible with every context in every later state |
| StateCompatibility.ClosureFitUnfolds | continuity/core_base.py:333-368 | the recursion with its visiting guard decides: not revisiting, the local check, and the same for every dependency |
| StateCompatibility.CompatibleIffClosureLocallyCompatible | continuity/core_base.py:328-368 | on acyclic provenance the visiting guard never decides: compatibility is a consistent context plus the local check on every State of the whole closure |
| StateCompatibility.UnfitAncestorBlocks | continuity/core_base.py:333-368 | one unfit State in the closure is enough for a negative answer in every context |
| Graphs.DetectCycle | continuity/core_base.py:86-96 | on any finite graph, edges leaving it ignored, the three-colour search terminates and answers true exactly when there is a directed cycle |
| Graphs.Dfs | continuity/core_base.py:88-95 | the visit step: true only on a cycle; false leaves the node visited and everything reachable from the visited nodes visited and acyclic |
| Graphs.WorklistReaches | continuity/core_base.py:98-107 | the worklist search terminates and answers reflexive-transitive reachability |
| Numbering.NextKeepsNumbering | continuity/core_base.py:137-142 | numbering a new item one past the largest of its owner keeps every owner's numbers contiguous from one and without repetition |
| EvidenceGate.HasConflictingStructuredClaims | continuity/core.py:14-39 | the loop answers true exactly when two eligible items of Evidence give one claim key different values, in whatever order they are offered |
| EvidenceGate.RequireEvidence | continuity/core.py:41-75 | succeeds exactly when some eligible item covers the scope and, for correctness-sensitive actions, none offered is AMBIGUOUS and no eligible claims conflict; returns exactly the eligible covering items, and otherwise raises InsufficientEvidence |
| EvidenceGate.Reconcile | continuity/core.py:77-98 | returns AMBIGUOUS on an AMBIGUOUS item or conflicting claims, else MATCHED when the gate passes, else WAIT |
| EvidenceGate.MatchedIffSufficient | continuity/core.py:41-98 | for the three correctness-sensitive actions MATCHED holds if and only if the gate without age limit succeeds |
| EvidenceGate.MatchedAgreesExactly | continuity/core.py:41-98 | for every action and every offer, exactly when MATCHED and the gate agree: the action is correctness-sensitive, or the offer holds no AMBIGUOUS item and no conflict, or no eligible item of it covers the scope |
| EvidenceGate.AdvisoryGap | continuity/core.py:77-98 | for each of the two advisory actions, ranking and estimating reuse, a concrete offer passes the gate and is reconciled as AMBIGUOUS |
| EvidenceGate.SufficientMeans | continuity/core.py:41-75 | what a passed correctness-sensitive gate guarantees: no AMBIGUOUS item, a VALID covering item of at least EXACT_OBSERVATION authority, no contradictory eligible claims |
| LiveCore.ContinuityCore.constructor | continuity/core_base.py:31-48 | a new core is empty and well formed |
| LiveCore.ContinuityCore.CreateProgram | continuity/core_base.py:58-59 | accepts exactly a fresh identifier and adds a CREATED Program; the whole new state is given, and a rejected call raises an error its checks allow and changes no field |
| LiveCore.ContinuityCore.SetProgramStatus | continuity/core_base.py:61-65 | changes only the status, and not that of a terminal Program; the whole new state is given, and a rejected call raises an error its checks allow and changes no field |
| LiveCore.ContinuityCore.CreateSession | continuity/core_base.py:67-69 | needs a fresh identifier and a known Program; the whole new state is given, and a rejected call raises an error its checks allow and changes no field |
| LiveCore.ContinuityCore.CreateContinuation | continuity/core_base.py:71-84 | needs a fresh identifier, a known Session and known parents of the same Session, inserts the node and refreshes every stored State lifecycle; the whole new state is given, and a rejected call raises an error its checks allow and changes no field |
| LiveCore.ContinuityCore.SetContinuationLifecycle | continuity/core_base.py:109-114 | changes one lifecycle and refreshes every stored State lifecycle; the whole new state is given, and a rejected call raises an error its checks allow and changes no field |
| LiveCore.ContinuityCore.ResumeAfterWait | continuity/core_base.py:116-122 | needs a WAITING continuation, ends it and creates its ACTIVE child in one step; the whole new state is given, and a rejected call raises an error its checks allow and changes no field |
| LiveCore.ContinuityCore.CreateRequest | continuity/core_base.py:125-127 | adds a READY request under a known continuation; the whole new state is given, and a rejected call raises an error its checks allow and changes no field |
| LiveCore.ContinuityCore.StartAttempt | continuity/core_base.py:129-143 | fences the truthy current attempt, adds the next generation as CURRENT and sets the request RUNNING; the whole new state is given, and a rejected call raises an error its checks allow and changes no field |
| LiveCore.ContinuityCore.SetAttemptExecution | continuity/core_base.py:145-158 | moves the execution status forward only and never past a terminal outcome; the whole new state is given, and a rejected call raises an error its checks allow and changes no field |
| LiveCore.ContinuityCore.CompleteAttempt | continuity/core_base.py:160-161 | settles the attempt as SUCCEEDED or FAILED under the same checks; the whole new state is given, and a rejected call raises an error its checks allow and changes no field |
| LiveCore.ContinuityCore.CreatePhase | continuity/core_base.py:164-174 | adds the next ordinal of a known attempt; a given ordinal must be that one; the whole new state is given, and a rejected call raises an error its checks allow and changes no field |
| LiveCore.ContinuityCore.SetPhaseStatus | continuity/core_base.py:176-191 | moves a phase forward only and never past a terminal status, and no phase of a SUPERSEDED attempt to COMPLETED; the whole new state is given, and a rejected call raises an error its checks allow and changes no field |
| LiveCore.ContinuityCore.CompletePhase | continuity/core_base.py:193-194 | completes the phase under the same checks; the whole new state is given, and a rejected call raises an error its checks allow and changes no field |
| LiveCore.ContinuityCore.CreateOutput | continuity/core_base.py:196-202 | adds an output of a known attempt over known Evidence; the whole new state is given, and a rejected call raises an error its checks allow and changes no field |
| LiveCore.ContinuityCore.FinalizeRequest | continuity/core_base.py:204-220 | commits the current SUCCEEDED attempt with its terminal output when the Evidence gate passes; an exact repetition changes nothing; the whole new state is given, and a rejected call raises an error its checks allow and changes no field |
| LiveCore.ContinuityCore.CreateState | continuity/core_base.py:223-247 | resolves the origin, checks scope and phase order of every dependency and adds the State with its derived lifecycle; the whole new state is given, and a rejected call raises an error its checks allow and changes no field |
| LiveCore.ContinuityCore.SetStateValidity | continuity/core_base.py:285-289 | an INVALID State never becomes VALID again; the whole new state is given, and a rejected call raises an error its checks allow and changes no field |
| LiveCore.ContinuityCore.AddReplica | continuity/core_base.py:370-372 | adds a replica of a known State; the whole new state is given, and a rejected call raises an error its checks allow and changes no field |
| LiveCore.ContinuityCore.SetReplicaStatus | continuity/core_base.py:374-375 | changes only the status of a known replica; the whole new state is given, and a rejected call raises an error its checks allow and changes no field |
| LiveCore.ContinuityCore.ProposeBinding | continuity/core_base.py:390-397 | allocates the next epoch of the subject for a PROPOSED candidate based on the current epoch; the whole new state is given, and a rejected call raises an error its checks allow and changes no field |
| LiveCore.ContinuityCore.ActivateInitialBinding | continuity/core_base.py:399-407 | allocates and activates the first binding of a subject; the whole new state is given, and a rejected call raises an error its checks allow and changes no field |
| LiveCore.ContinuityCore.BeginMigration | continuity/core_base.py:409-412 | turns a PROPOSED candidate into a MIGRATING one; the whole new state is given, and a rejected call raises an error its checks allow and changes no field |
| LiveCore.ContinuityCore.CommitMigration | continuity/core_base.py:414-430 | activates a candidate that is not stale when the Evidence gate passes, superseding the truthy current binding; the whole new state is given, and a rejected call raises an error its checks allow and changes no field |
| LiveCore.ContinuityCore.RecordEvent | continuity/core_base.py:433-442 | adds a new event at the end of the order; an equal repetition changes nothing, a different one is refused; the whole new state is given, and a rejected call raises an error its checks allow and changes no field |
| LiveCore.ContinuityCore.RecordEvidence | continuity/core_base.py:445-472 | adds Evidence whose derivation is supported in scope and status; an equal repetition changes nothing; the whole new state is given, and a rejected call raises an error its checks allow and changes no field |
| LiveCore.ContinuityCore.InsertContinuation | continuity/core_base.py:80-83 | keeps the inserted node exactly when the session graph has no cycle with it, and otherwise restores the map |
| LiveCore.ContinuityCore.InsertState | continuity/core_base.py:244-247 | keeps the inserted State exactly when provenance stays acyclic, and otherwise restores the map |
| LiveCore.ContinuityCore.HasSessionCycle | continuity/core_base.py:86-96 | decides whether the parent graph of one session has a directed cycle |
| LiveCore.ContinuityCore.IsAncestor | continuity/core_base.py:98-107 | decides reflexive-transitive parentage |
| LiveCore.ContinuityCore.LifecycleOf | continuity/core_base.py:296-303 | the loop over all continuations computes the ACTIVE, WAITING, SPECULATIVE, TERMINAL maximum over the descendants of an origin |
| LiveCore.ContinuityCore.RefreshStateLifecycles | continuity/core_base.py:291-304 | every stored lifecycle becomes that maximum and nothing else changes |
| LiveCore.ContinuityCore.StateCompatible | continuity/core_base.py:328-331 | answers compatibility as the specification defines it |
| LiveCore.ContinuityCore.StateCompatibleRecursive | continuity/core_base.py:333-368 | the recursion over dependencies terminates and decides the guarded closure check |
| LiveCore.ContinuityCore.CanConsumeState | continuity/core_base.py:377-387 | true exactly for a VALID replica of that State, a compatible context and a passed Evidence gate; an unknown replica raises KeyError |
| Codec.DecodeEncode | continuity/serialization.py:100-143 | decoding undoes encoding on every storable value, for every iteration order and every sort key |
| Codec.EncodeInjective | continuity/serialization.py:100-122 | different storable values have different encodings |
| Codec.EncodeForgetsOrder | continuity/serialization.py:100-122 | the encoding does not depend on the order in which sets and dictionaries are iterated |
| Snapshot.RestoreOfSnapshot | continuity/serialization.py:242-283 | restoring the snapshot of any core returns that core when the oracle accepts it and raises ValueError otherwise |
| Checkpoint.ReachableRoundTrip | continuity/serialization.py:242-283 | the snapshot of a core reached from empty restores to the same core exactly when the run never slipped the fence |
| Snapshot.SnapshotForgetsOrder | continuity/serialization.py:242-247 | two snapshots of one core are equal whatever the iteration orders |
| Snapshot.SnapshotsDiffer | continuity/serialization.py:242-247 | equal snapshots come from equal cores |
| Snapshot.DepictsOne | continuity/serialization.py:250-275 | a document decodes to at most one core, so restoring is a function of the document |
| Restore.ReadTable | continuity/serialization.py:204-218 | the loop over one decoded dictionary answers with a table exactly when the value is the image of that table: text keys and entities of the expected type throughout |
| Restore.ReadOrder | continuity/serialization.py:220-224 | a list of texts is read back, anything else refused |
| Restore.ReadState | continuity/serialization.py:202-275 | the shape checks, the typed reading of all sixteen fields and the identity loop: the core that results has exactly the decoded values, and on a refusal no core with unique identities has them |
| Restore.RestoreIsReadThenOracle | continuity/serialization.py:250-283 | restoring any document, well formed or not, is that reading followed by the oracle, with ValueError for every failure |
| Readers.EvidenceReads | continuity/serialization.py:187-199 | a decoded value is read as Evidence exactly when it has the class, the fields, their types and a paired claim |
| Readers.ReusableStateReads | continuity/serialization.py:187-199 | a decoded value is read as a State exactly when it has the class, the fields and their types |
| EventLog.EventRecordRoundTrip | continuity/serialization.py:290-300 | an event is recovered from its record and from no other event's record |
| EventLog.ReplayEventLog | continuity/serialization.py:321-324 | replaying a log records its events in order and stops at the first refusal |
| EventLog.ReplayLogMerges | continuity/serialization.py:321-324 | any log is accepted by a core exactly when each of its events is and equal identifiers carry equal events, repetitions included, and then adds exactly its new events, each where it first occurs, touching nothing else |
| EventLog.ExportedLogRoundTrip | continuity/serialization.py:317-324 | after every run the exported log rebuilds the events and their order in an empty core, and replayed into the core itself changes nothing |
| OperationRecords.RecordRoundTrip | continuity/replay.py:213-235 | reading a written operation record gives the operation back with its arguments sorted by name |
| OperationRecords.BuiltRoundTrip | continuity/replay.py:181-235 | an operation that was built can always be written, and reading it back gives the same operation |
| OperationRecords.ReplayNeverReadsTheClock | continuity/replay.py:47-52 | every time-sensitive operation read from a record carries an explicit time |
| OperationRecords.LoadOperations | continuity/replay.py:243-254 | loads all records or raises ValueError, accepting exactly the lists of readable records without a repeated operation identifier |
| Replay.ApplyOperation | continuity/replay.py:257-260 | dispatches to the named method of the core: the call answers with the errors of that operation and the core takes its step |
| Replay.ReplayOperations | continuity/replay.py:263-270 | the loop over operations with a set of seen identifiers is the replay fold: a repeated identifier or a rejected call ends it, keeping what was applied |
| Checkpoint.ReplayIsRun | continuity/replay.py:263-270 | a replay completes exactly when identifiers are distinct and every call is accepted, and is then the plain run of the calls |
| Checkpoint.ReplayStopsAtPrefix | continuity/replay.py:263-270 | an interrupted replay leaves the core as the run of a prefix of its calls |
| Checkpoint.ReplayedCoreIsReachable | continuity/replay.py:263-270 | whatever happens, a replay from empty ends in a state some run reaches |
| Checkpoint.ReplayConcat | continuity/replay.py:263-270 | replaying a concatenation is replaying its parts one after the other with the identifiers remembered |
| Checkpoint.CheckpointAccepted | continuity/serialization.py:250-283 | snapshot and restore between two parts of a replay is accepted exactly when the first part never slipped the fence, and then continues with the same core |
| Checkpoint.CheckpointEquivalence | continuity/serialization.py:242-283 | cutting a replay anywhere to snapshot and restore gives the same outcome and the same core as the uncut replay, for parts that share no identifier |
| Checkpoint.CutForgetsIdentifiers | continuity/replay.py:263-270 | for any second part, rejected midway or not: the uncut replay completes if and only if the cut one does and the parts share no identifier, since the cut forgets the identifiers seen |
| Checkpoint.RepeatedIdentifierExample | continuity/replay.py:263-270 | a concrete pair of one-call parts that the uncut replay refuses and the cut replay accepts |
| RetentionCapacity.RaisesExactlyWhenOvertaken | experiments/c73_retention_engine.py:624-649 | for every program and policy a run raises if and only if, at some instant, an ADMIT after one that overflowed the cache is skipped or refused; otherwise no audit record and no reported maximum exceeds the capacity |
| RetentionCapacity.NeverOvercommits | experiments/c73_retention_engine.py:896-969 | with at most one ADMIT per instant no policy raises and no audit record exceeds the capacity |
| RetentionExamples.CrowdedRaises | experiments/c73_retention_engine.py:757-808 | a concrete well-formed program of three ADMITs at one instant on which LRU with one slot raises |
| RetentionSafety.AdmissionRaisesIffOvertaken | experiments/c73_retention_engine.py:757-808 | an ADMIT raises exactly when the cache is already over capacity and it is skipped or refused; otherwise B4 protected bytes stay within capacity and pinning never overcommits |
| RetentionCapacity.SurvivorsHaveLargestKeys | experiments/c73_retention_engine.py:812-866 | enforcement splits the residents into evicted and kept so that every evicted key is at most every kept key, and evicts no more than needed |
| RetentionCapacity.AdmissionsAreExplained | experiments/c73_retention_engine.py:872-884 | every admitted State is still resident after enforcement or has an eviction record at that time, so the final skip record is never written |
| RetentionModel.VictimUnique | experiments/c73_retention_protocol.py:174-197 | the eviction keys order the residents strictly, so the minimum is one State |
| RetentionRuns.AdvanceDecreases | experiments/c73_retention_engine.py:905-945 | each turn of the main loop consumes an external instant or releases a resident State: the lexicographic measure falls |
| RetentionTime.EveryInstantVisited | experiments/c73_retention_engine.py:905-948 | the loop visits strictly increasing times, every event time among them, consumes every external instant and leaves no expiry up to the Program end unhandled |
| RetentionTime.ExpiriesSettle | experiments/c73_retention_engine.py:715-728 | every expiry is handled at exactly its own time, so the exact-time assertion cannot fire |
| RetentionTruth.ReferenceWorkingSetBytes | experiments/c73_retention_engine.py:542-573 | the loop computes the largest working set over the external instants and raises ValueError when it is empty |
| RetentionTruth.PassesInPhaseOrder | experiments/c73_retention_engine.py:926-943 | the separate passes of an instant move the ground truth as one pass in phase order does |
| RetentionTruth.TruthAtEveryInstant | experiments/c73_retention_engine.py:896-945 | after every turn of the loop, under every policy, the ground truth of the engine is the truth the reference computation tracks after the external instants handled so far |
| RetentionTruth.EveryInstantReached | experiments/c73_retention_engine.py:896-945 | and each number of external instants, up to all of them, is where some turn of the loop ends, so the two truths agree at the end of every external instant |
| RetentionTruth.TruthAtEnd | experiments/c73_retention_engine.py:896-945 | in particular after the loop |
| RetentionTruth.TruthIgnoresPolicy | experiments/c73_retention_engine.py:896-945 | two runs of one program have the same ground truth whenever they have handled equally many external instants, whatever their policies and capacities |
| RetentionWorkingSet.ReferenceCapacitySuffices | experiments/c73_retention_engine.py:542-573 | with capacity for the reference working set LIFECYCLE_B4 finishes without raising, never evicts and is never CAPACITY_INFEASIBLE, however many ADMITs share an instant |
| RetentionOccupancy.ByteSecondsConserved | experiments/c73_retention_engine.py:651-672 | useful plus wasted byte-seconds equal the resident bytes integrated over the visited intervals up to the Program end |
| RetentionOccupancy.ByteSecondsBounded | experiments/c73_retention_protocol.py:224-238 | a run that does not raise classifies at most capacity times duration |
| RetentionLruRuns.LruInclusion | experiments/c73_retention_engine.py:730-833 | as long as no late ADMIT lasts, after every instant the residents of the smaller LRU cache are residents of the larger one with equal residency data. An ADMIT is late when it finds its valid State only in the larger cache, and lasts when fewer later ADMITs of its instant than the smaller cache has slots are accepted there |
| RetentionLruRuns.InclusionIffNoneLasts | experiments/c73_retention_engine.py:730-833 | and exactly then: for every program inclusion holds at all instants up to an instant if and only if no late ADMIT before it lasts |
| RetentionLruRuns.LastingBreaksInclusion | experiments/c73_retention_engine.py:757-833 | the first late ADMIT that lasts ends the inclusion at its own instant |
| RetentionLate.SurvivesByRank | experiments/c73_retention_engine.py:819-837 | an LRU enforcement keeps a State exactly when fewer residents than there are slots have a larger eviction key |
| RetentionLruRuns.LargerLruReusesMore | experiments/c73_retention_protocol.py:174-181 | unless a late ADMIT lasts, hits and useful byte-seconds never fall as LRU capacity grows, and the opportunities are the same |
| RetentionLruRuns.OneAdmitNeverLasts | experiments/c73_retention_engine.py:757-808 | in a program that admits each State once no ADMIT is late, so none lasts |
| RetentionAnomaly.RepeatedAdmitBreaksInclusion | experiments/c73_retention_protocol.py:174-181 | a concrete program with a repeated ADMIT on which an LRU cache of three slots lacks a State that one of two slots holds, and gets fewer hits |
| RetentionInclusion.EvictDownIncluded | experiments/c73_retention_engine.py:819-837 | evicting two included LRU caches down to their capacities keeps the inclusion |
| RetentionBranchB4.B4IsOptimal | experiments/c73_retention_engine.py:700-884 | on every branch program LIFECYCLE_B4 gets exactly min(WAITING States, slots) hits, never raises and is never infeasible |
| RetentionBranchRuns.NoPolicyBeatsTheBound | experiments/c73_retention_engine.py:730-833 | on every branch program no policy gets more hits than that |
| BranchProgram.BuildBranchProgram | experiments/c73c_protocol.py:499-606 | the loops that append admissions, resolutions, reuses and cleanup build a well-formed branch program whose WAITING States are the labelled ones, for any width, labels and admission order |
| BranchProgram.GeneratedProgramOptimal | experiments/c73c_protocol.py:499-606 | on a generated program B4 gets min(WAITING labels, slots) hits, neither raises nor is infeasible, and no other policy of the same capacity gets more |
| LiveRetention.RetentionRun.constructor | experiments/c73_retention_engine.py:577-618 | a new run is the start state of its case; the fields afterwards are those of the specification, or the call raises where it fails |
| LiveRetention.RetentionRun.Note | experiments/c73_retention_engine.py:624-649 | one audit record with the resident bytes; raises exactly when they exceed the capacity; the fields afterwards are those of the specification, or the call raises where it fails |
| LiveRetention.RetentionRun.CloseInterval | experiments/c73_retention_engine.py:651-672 | closes an interval as useful or wasted, and raises on one that ends before it starts; the fields afterwards are those of the specification, or the call raises where it fails |
| LiveRetention.RetentionRun.MarkInfeasible | experiments/c73_retention_engine.py:674-676 | marks the run infeasible and records it; the fields afterwards are those of the specification, or the call raises where it fails |
| LiveRetention.RetentionRun.ProcessInvalidation | experiments/c73_retention_engine.py:678-683 | the State becomes invalid and leaves the cache; the fields afterwards are those of the specification, or the call raises where it fails |
| LiveRetention.RetentionRun.ProcessTruthUpdate | experiments/c73_retention_engine.py:685-698 | the lifecycle or session status changes as the event says; the fields afterwards are those of the specification, or the call raises where it fails |
| LiveRetention.RetentionRun.PolicyReleases | experiments/c73_retention_engine.py:700-713 | exactly the States the policy lets go of leave, in name order; the fields afterwards are those of the specification, or the call raises where it fails |
| LiveRetention.RetentionRun.TtlExpiries | experiments/c73_retention_engine.py:715-728 | exactly the States expired by now leave, in name order; the fields afterwards are those of the specification, or the call raises where it fails |
| LiveRetention.RetentionRun.ProcessReuse | experiments/c73_retention_engine.py:730-748 | counts the opportunity and classifies it as rejection, miss or hit; the fields afterwards are those of the specification, or the call raises where it fails |
| LiveRetention.RetentionRun.Admit | experiments/c73_retention_engine.py:757-808 | marks the State produced and admits, skips or refuses it as the policy decides; the fields afterwards are those of the specification, or the call raises where it fails |
| LiveRetention.RetentionRun.EvictToCapacity | experiments/c73_retention_engine.py:819-862 | the loop evicts least keys until the bytes fit; the fields afterwards are those of the specification, or the call raises where it fails |
| LiveRetention.RetentionRun.CapacityEnforce | experiments/c73_retention_engine.py:812-884 | evicts first and records afterwards; the fields afterwards are those of the specification, or the call raises where it fails |
| LiveRetention.RetentionRun.NextExpiry | experiments/c73_retention_engine.py:886-894 | the earliest expiry after a time, if any; the fields afterwards are those of the specification, or the call raises where it fails |
| LiveRetention.RetentionRun.HandleInstant | experiments/c73_retention_engine.py:918-944 | the passes of one instant in order; the fields afterwards are those of the specification, or the call raises where it fails |
| LiveRetention.RetentionRun.Run | experiments/c73_retention_engine.py:896-969 | the whole main loop and the Program end equal the specified run; the fields afterwards are those of the specification, or the call raises where it fails |
| EvidenceGate.GateOverFields | continuity/core.py:41-75 | the gate over the raw fields, in both directions: for correctness-sensitive actions no AMBIGUOUS item and one value per claim key among the items that are VALID, observed, unexpired at now and young enough; for every action such an item covers the scope |
| EvidenceGate.ExpiredIsRefused | continuity/core.py:53-75 | an offer whose covering items have all expired, or outgrown the age limit, is refused at that time and at every later time |
| EvidenceGate.OnlyContradictionsPass | continuity/core.py:14-75 | if an offer is refused now and passes later, it held two VALID items with different values for one claim key |
| EvidenceGate.ContradictionOutlasted | continuity/core.py:14-75 | and that does happen: for each correctness-sensitive action a concrete offer passes only after the first of two contradictory claims expired |
| EvidenceRuns.FinalizationIsVouched | continuity/core_base.py:204-220 | an accepted finalization that is no repetition names, in its output, a VALID observed item scoped to the attempt, unexpired at the time of the call, and nothing AMBIGUOUS or contradictory |
| EvidenceRuns.CommitIsVouched | continuity/core_base.py:414-430 | an accepted migration commit offers such an item scoped to the binding and its epoch |
| EvidenceRuns.ConsumptionIsVouched | continuity/core_base.py:377-388 | a consumable State comes with such an item scoped to the State and its replica, a VALID replica of that State and a compatible context |
| EvidenceRuns.CompletedWasFinalized | continuity/core_base.py:204-220 | in every run a COMPLETED request was finalized, while RUNNING, by some accepted call whose output, attempt and Evidence the core still holds, the Evidence unexpired at the time of that call |
| EvidenceRuns.CurrentWasBound | continuity/core_base.py:399-430 | in every run the current binding of a subject was activated as its first one or committed by an accepted call so vouched for |
| EvidenceRuns.NewEvidenceIsSupported | continuity/core_base.py:445-472 | whatever call added it, new Evidence is DERIVED exactly when it has supports and exactly when it has a rule, its supports were known, its scope lies within theirs, and if VALID so were they |
| EvidenceRuns.DerivationIsGrounded | continuity/core_base.py:445-472 | after every run each pair in the scope of an item is traced through its derivation to an item that is not DERIVED and has the pair in its own scope |
| Isolation.ContextsOfRunningRequests | continuity/core_base.py:306-326 | on sound states a context is consistent exactly when its request is RUNNING, it is read off that request, and its Phase, if any, is a RUNNING or COMPLETED one of the current attempt |
| Isolation.OwnOrCommitted | continuity/core_base.py:333-368 | on sound states the local check is equivalent to: VALID, inherited from an ancestor, made by the current attempt itself in an earlier Phase or by the committed attempt of a COMPLETED request, and semantically valid |
| Isolation.ProductsStayPrivate | continuity/core_base.py:333-368 | in any core, for every State a compatible one rests on: if its request is COMPLETED its producer is that request's committed attempt, otherwise the producer is the CURRENT attempt of the context |
| Isolation.CompatibleExactly | continuity/core_base.py:328-368 | after every run, compatibility is exactly a consistent context and that condition on every State of the closure |
| Isolation.SharedOnlyAfterCommit | continuity/core_base.py:204-368 | over runs: a State made for one request is compatible with a context of another only after some accepted call finalized its request, committing the very attempt that made it |
| Progress.AcceptedMoves | continuity/core_base.py:61-193 | for every program, continuation, attempt and phase, exactly which status changes are accepted, over the raw enumeration values |
| Progress.RunsMoveForward | continuity/core_base.py:51-472 | over every run every status only moves forward: no RUNNING attempt or phase is CREATED again, no terminal program, continuation, request, attempt or phase changes |
| StateCreation.AcceptedStateExactly | continuity/core_base.py:223-272 | on sound states a State is accepted exactly when its identifier is unused, its origin may produce one, and it may rest on each dependency: an ancestor's, and within one attempt an earlier Phase's |
| StateCreation.NewStateIsAsAsked | continuity/core_base.py:223-247 | and the State then stored has the requested fields, each in its place, with the continuation, request, attempt and phase its origin stands for |
| Fencing.SupersededMakesNothing | continuity/core_base.py:249-272 | no State with a SUPERSEDED producer is accepted, whichever origin names it |
| OracleFacts.AcceptedMeansAccountable | continuity/invariants.py:27-283 | for every core, reached or not, the fifteen checks hold if and only if independently written facts do: unique identities, known owners, no own ancestor, authority as named, numbers counted off, outcomes backed, provenance, placement, epochs, supports and event order |
| OracleFacts.IdentifiersAreUnique | continuity/invariants.py:44-64 | the identity check: every entity under its own identifier and no identifier in two places |
| OracleFacts.OwnersAndAncestors | continuity/invariants.py:66-79 | the parent check: every owner exists and parents are in the session |
| OracleFacts.AuthorityFollowsNames | continuity/invariants.py:81-104 | the authority check: an attempt of a request is CURRENT exactly when the request names it as current, and COMMITTED exactly when it names it as committed |
| OracleFacts.NumbersAreCountedOff | continuity/invariants.py:106-141 | the generation and ordinal checks: each owner has the numbers from 1 to their count, each once |
| OracleFacts.OutcomesAreBacked | continuity/invariants.py:112-128 | the commit check: a COMPLETED request has a SUCCEEDED committed attempt of its own, that attempt's terminal output and no current attempt; a FAILED or CANCELLED one names none of the three |
| OracleFacts.NoneIsItsOwnAncestor | continuity/invariants.py:130-132 | the ancestry check: no continuation reaches itself through its parents |
| OracleFacts.ProvenanceIsAccountedFor | continuity/invariants.py:143-207 | the provenance check over the fields of each State and its dependencies |
| OracleFacts.BindingsFollowNames | continuity/invariants.py:216-224 | the binding check: ACTIVE exactly when current for its subject, at the recorded epoch |
| OracleFacts.EpochsAreAccountedFor | continuity/invariants.py:226-237 | the epoch check: epochs above their base and distinct, the last allocated one the newest, the current one in use |
| OracleFacts.SupportIsAccountedFor | continuity/invariants.py:239-252 | the derivation check over the fields of each item |
| OracleFacts.RestIsAccountedFor | continuity/invariants.py:209-264 | the replica, event and output checks |
| OracleFacts.InvalidSuitsNone | continuity/invariants.py:266-283 | the last check never decides: an INVALID State is compatible with no context, whatever the semantic predicate |
| Restore.RestoredIsAccountable | continuity/serialization.py:250-283 | a document restores if and only if it depicts an accountable core, and what it restores to is that core |
| Restore.RestoredHasShape | continuity/serialization.py:250-272 | and then it has the schema and exactly the sixteen fields |
| ReplayClock.ActionsAreTheOperations | continuity/replay.py:15-42 | the allowed actions are exactly the names of the 25 operations |
| ReplayClock.TimeMattersExactly | continuity/replay.py:44-52 | an action demands an explicit time exactly when some call of it is answered differently at two times |
| ReplayClock.LoadedCallIgnoresClock | continuity/replay.py:223-235 | the call dispatched for an accepted record is the same under any two clock readings |
| ReplayClock.ReplayIgnoresClock | continuity/replay.py:263-271 | two replays of one loaded log under different clocks end in the same core with the same outcome |
| OperationRecords.AcceptedRecordStands | continuity/replay.py:192-235 | an accepted record has the schema, a nonempty identifier and an allowed action, and the operation read from it passes the checks made again before it is applied or written |
| FieldsByName.RecordAt | continuity/serialization.py:100-123 | a record of a document holds each value under the name of its field |
| FieldsByName.ProgramByName | continuity/entities.py:60-62 | which field of the entity stands under which name in a snapshot |
| FieldsByName.SessionByName | continuity/entities.py:65-67 | which field of the entity stands under which name in a snapshot |
| FieldsByName.ContinuationByName | continuity/entities.py:70-74 | which field of the entity stands under which name in a snapshot |
| FieldsByName.LogicalRequestByName | continuity/entities.py:77-83 | which field of the entity stands under which name in a snapshot |
| FieldsByName.AttemptByName | continuity/entities.py:86-91 | which field of the entity stands under which name in a snapshot |
| FieldsByName.PhaseByName | continuity/entities.py:94-99 | which field of the entity stands under which name in a snapshot |
| FieldsByName.StateReplicaByName | continuity/entities.py:126-132 | which field of the entity stands under which name in a snapshot |
| FieldsByName.BindingByName | continuity/entities.py:135-141 | which field of the entity stands under which name in a snapshot |
| FieldsByName.OutputByName | continuity/entities.py:169-173 | which field of the entity stands under which name in a snapshot |
| FieldsByName.SemanticEventByName | continuity/entities.py:52-57 | which field of the entity stands under which name in a snapshot |
| FieldsByName.ReusableStateFirstByName | continuity/entities.py:111-123 | the same for a part of the fields |
| FieldsByName.ReusableStateMiddleByName | continuity/entities.py:111-123 | the same for a part of the fields |
| FieldsByName.EvidenceFirstByName | continuity/entities.py:144-157 | the same for a part of the fields |
| FieldsByName.EvidenceMiddleByName | continuity/entities.py:144-157 | the same for a part of the fields |
| FieldsByName.EvidenceLastByName | continuity/entities.py:144-157 | the same for a part of the fields |
| RetentionPolicyRuns.TenableAfterEveryTurn | experiments/c73_retention_engine.py:700-807 | after every turn of every run, whatever the capacity, each resident State is VALID, its Session is live under SESSION_PINNING, and it is not TERMINAL under LIFECYCLE_B4 |
| RetentionPolicyRuns.InstantLeavesTenable | experiments/c73_retention_engine.py:896-956 | every single instant restores that, however its events change Sessions and lifecycles |
| RetentionPolicyRuns.PinnedUntilReleased | experiments/c73_retention_engine.py:700-713 | under SESSION_PINNING a resident State leaves between two turns only if in between it was invalidated or its Session had ended |
| RetentionPolicyRuns.WantedStays | experiments/c73_retention_engine.py:700-880 | through one instant a resident State that is not invalidated and that the policy still wants keeps its admission, if the policy never evicts it or the cache ends with room for one more |
| RetentionPolicyRuns.ServedOrInfeasible | experiments/c73_retention_engine.py:757-880 | an ADMIT of a VALID State the policy wants ends with the State resident or the run marked infeasible, if the policy never evicts it or the cache ends with room for one more |
| RetentionPolicyRuns.InfeasibleIsCrowded | experiments/c73_retention_engine.py:674-676 | a run is marked infeasible only in an instant that ends with the States the policy may not evict leaving no room for one more |
| RetentionPolicyRuns.LeastIsColder | experiments/c73_retention_protocol.py:174-197 | the eviction order: lifecycle first under LIFECYCLE_B4, then last touch, admission ordinal and name |
| RetentionPolicyRuns.EvictedIsColder | experiments/c73_retention_engine.py:812-870 | whatever is evicted precedes in that order whatever stays, and is never ACTIVE under LIFECYCLE_B4 nor anything at all under SESSION_PINNING |
| RetentionPolicyRuns.DatedAfterEveryTurn | experiments/c73_retention_engine.py:757-807 | after every turn each resident State carries the occurrence and the expiry of an ADMIT event of its own, which under FIXED_TTL is less than the time to live ago |
| RetentionCounts.InstantCounts | experiments/c73_retention_engine.py:730-748 | one instant adds its REUSE events to the opportunities, the ones the truth rejects to the rejections, and at most the others to the hits |
| RetentionCounts.CountsAtEveryTurn | experiments/c73_retention_engine.py:730-748 | after every turn opportunities and rejections are those of the ground truth alone, and hits and rejections never exceed the opportunities |
| RetentionCounts.CountsIgnorePolicy | experiments/c73_retention_engine.py:730-748 | at equal external instants two runs under any two configurations have the same opportunities and rejections |
| RetentionCounts.StrongestDependent | experiments/c73_retention_protocol.py:147-163 | the derived lifecycle is the strongest among the dependents, in the order ACTIVE, WAITING, SPECULATIVE, TERMINAL |
| RetentionCounts.AdmittedEarlier | experiments/c73_retention_engine.py:266-360 | in a well-formed program every reused or invalidated State was admitted at a strictly earlier time |
| RetentionAudit.AuditAccountsForTheRun | experiments/c73_retention_engine.py:624-992 | of every run the audit trail alone gives the hits, rejections and opportunities, the capacity outcome and the largest resident size |
| RetentionAudit.OversizedNeverEnters | experiments/c73_retention_engine.py:775-779 | under LRU and FIXED_TTL a State larger than the capacity is turned away: nothing becomes resident, nothing is evicted and no byte-second is counted |
| BranchProgram.GeneratedIsScheduled | experiments/c73c_protocol.py:499-606 | the events of the generated program are exactly those of the plan: the k-th admission is of the k-th branch in the admission order, and so on for resolutions, reuses and endings |
| Scheduler.Schedule | experiments/c72_routing_reuse.py:600-626 | unplaced programs are returned unscheduled, an unknown worker raises KeyError and a length mismatch ValueError; otherwise every span is the specified one, the terminal time is their latest completion, and only FANOUT programs get a fanout time |
| Scheduler.CapacityRespected | experiments/c72_routing_reuse.py:604-621 | at no time does a worker run more operations than its capacity |
| Scheduler.SameSlotWaits | experiments/c72_routing_reuse.py:611-619 | two operations that took the same slot never overlap |
| Scheduler.NothingStartsEarly | experiments/c72_routing_reuse.py:612-616 | no operation starts before its release, its program or its worker is ready |
| Scheduler.SerialIgnoresSlots | experiments/c72_routing_reuse.py:612-620 | in a SERIAL program the start is the latest of release, worker readiness and previous completion: slots and capacities have no influence |
| Scheduler.SerialNeverOverlaps | experiments/c72_routing_reuse.py:612-620 | SERIAL operations run one after the other in program order |
| Scheduler.SerialWaitsForTheWork | experiments/c72_routing_reuse.py:612-620 | each completion is at least any earlier availability plus all service from there on |
| Scheduler.SerialCriticalChain | experiments/c72_routing_reuse.py:612-620 | and for some earlier operation it is exactly that, so the completion is the length of a critical chain |
| Scheduler.SerialTakesTheTotal | experiments/c72_routing_reuse.py:622-623 | a SERIAL program takes at least its total service |
| Scheduler.NoSlotIdles | experiments/c72_routing_reuse.py:606-619 | with everything available at once the slots of a worker have together advanced by exactly the work it was given |
| Scheduler.GrahamBound | experiments/c72_routing_reuse.py:606-623 | then a worker with m slots finishes within total/m + (1 - 1/m) times its longest service |
| Scheduler.NoRivalIsMuchFaster | experiments/c72_routing_reuse.py:606-623 | and no other schedule of the same operations on its slots, in any order and with any waiting, is faster by more than the factor 2 - 1/m |
| Scheduler.ItsOwnRival | experiments/c72_routing_reuse.py:606-623 | no worker finishes before its load is spread evenly over its slots |
| Components.ComponentsByStack | experiments/c74_migration_results.py:103-126 | for any finite set of cells and symmetric adjacency: a partition into ascending parts, ordered by their first cells, in which two cells share a part exactly when a path of adjacent cells of the set joins them |
| Components.ComponentsByQueue | experiments/c75_g2_execute.py:663-698 | the same specification for the searches with a queue |
| Components.GatherByStack | experiments/c74_migration_results.py:111-124 | one exploration, newest cell first, collects exactly the cells joined to its start |
| Components.GatherByQueue | experiments/c75_g2_execute.py:667-677 | one exploration, oldest cell first, collects exactly the cells joined to its start, each once |
| Components.ComponentsUnique | experiments/c75_g2_execute.py:663-698 | the specification has one solution, so the order of exploration cannot show in the answer |
| Components.SearchesAgree | experiments/c74_migration_results.py:103-126 | on grid cells the stack search with its adjacency rule and the queue search with the other rule return the same components |

## Left out

- Floating-point rounding, infinities and NaN: times and byte-seconds are reals, so the tolerance check on the useful and wasted fractions (and the fractions themselves) is not modelled.
- Python's identification of `1`, `True` and `1.0` inside sets and dictionaries: values of different kinds are different.
- JSON text, line splitting, SHA-256 and fingerprints: a document is the parsed tree, and canonical text enters only as a total order that tells trees apart.
- Annotation matching by reflection: whether a call's arguments bind and match is a parameter (`Binder`), assumed to admit only values the codec stores, and so is the call that bound arguments stand for (`Caller`).
- Readers.EvidenceReads: an integer standing for a float is refused here and accepted by the source; objects under tags that expect arrays do not decode.
- Restore.ReadState: identifiers are checked after all collections are read rather than while; both failures are a ValueError.
- OperationRecords.RecordRoundTrip: the model does not print or parse the JSON line itself.
- Keyword calls with an unknown action name and the default arguments of the operations: replayed calls carry all their arguments.
- `origin_type` is a string in the source; here it is one of the four known names or another name, which creation refuses.
- The reason strings of audit records, the manifest and protocol fingerprints of a retention result, and the projection of tool-return times.
- Construction checks of retention events that the engine does not read (admission ordinals, payload types).
- The P2 program builder and the pseudo-random labels and admission priorities of P3: labels and order are a parameter (`Plan`), and every choice is covered.
- Policy scores, cost profiles and the oracle checks of routing: the scheduler takes worker and service time of each operation as given, and service times that are not negative.
- The lookup of a cell on the study axes, which raises for a value off the grid: cells are positions on the axes.
- Worker processes, calibration, adequacy, bootstrap statistics, scenario catalogues, artifact writers and command lines.
- The transitive order of phase ordinals along provenance: the code checks direct dependencies only, and so does the model.
