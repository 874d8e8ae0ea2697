/** Snapshots of a whole core, and when restoring one gives the core back. */
module Snapshot {
  import opened Entities
  import opened CoreSpec
  import opened Oracle
  import opened StateCompatibility
  import opened Images
  import opened Readers
  import C = Codec

  const SNAPSHOT_SCHEMA := "cadi.core.snapshot.v1"

  // ---------- the sixteen fields of a core ----------

  function Table<T>(m: map<Id, T>, image: T -> Value): Value {
    C.Dict(map k | k in m :: C.Text(k) := image(m[k]))
  }

  lemma TableEntry<T(!new)>(m: map<Id, T>, image: T -> Value, k: Id)
    ensures k in m <==> C.Text(k) in Table(m, image).entries
    ensures k in m ==> Table(m, image).entries[C.Text(k)] == image(m[k])
  {
  }

  lemma SameTables<T(!new)>(m: map<Id, T>, n: map<Id, T>, image: T -> Value)
    requires Table(m, image) == Table(n, image)
    ensures m.Keys == n.Keys && forall k :: k in m ==> image(m[k]) == image(n[k])
  {
    hide Table;
    forall k ensures (k in m <==> k in n) && (k in m ==> image(m[k]) == image(n[k])) {
      TableEntry(m, image, k);
      TableEntry(n, image, k);
    }
  }

  /** Where a reader inverts the image, a table determines its entities. */
  lemma TableInjective<T(!new)>(m: map<Id, T>, n: map<Id, T>, read: Value -> Option<T>, image: T -> Value)
    requires Inverts(read, image) && Table(m, image) == Table(n, image)
    ensures m == n
  {
    hide Table, Inverts;
    SameTables(m, n, image);
    forall k | k in m ensures m[k] == n[k] {
      InvertsInjective(read, image, m[k], n[k]);
    }
  }

  lemma TableStorable<T(!new)>(m: map<Id, T>, image: T -> Value)
    requires forall x :: C.Storable(image(x))
    ensures C.Storable(Table(m, image))
  {
  }

  function OrderValue(q: seq<Id>): Value {
    C.List(seq(|q|, i requires 0 <= i < |q| => C.Text(q[i])))
  }

  lemma OrderInjective(p: seq<Id>, q: seq<Id>)
    requires OrderValue(p) == OrderValue(q)
    ensures p == q
  {
    assert |p| == |OrderValue(p).elements| == |q|;
    forall i | 0 <= i < |p| ensures p[i] == q[i] {
      assert OrderValue(p).elements[i] == OrderValue(q).elements[i];
    }
  }

  datatype Field =
    | Programs | Sessions | Continuations | Requests | Attempts | Phases | States | Replicas
    | Bindings | EvidenceRecords | Outputs | Events | EventOrder | CurrentBindings | CurrentEpochs | LastAllocated

  function FieldName(f: Field): string {
    match f
    case Programs => "programs"
    case Sessions => "sessions"
    case Continuations => "continuations"
    case Requests => "requests"
    case Attempts => "attempts"
    case Phases => "phases"
    case States => "states"
    case Replicas => "replicas"
    case Bindings => "bindings"
    case EvidenceRecords => "evidence"
    case Outputs => "outputs"
    case Events => "events"
    case EventOrder => "event_order"
    case CurrentBindings => "current_binding_by_subject"
    case CurrentEpochs => "current_epoch_by_subject"
    case LastAllocated => "last_allocated_epoch_by_subject"
  }

  lemma FieldNamesDiffer(f: Field, g: Field)
    ensures FieldName(f) == FieldName(g) ==> f == g
  {
  }

  ghost function FieldNames(): (names: set<string>)
    ensures forall name :: name in names <==> exists f: Field :: FieldName(f) == name
  {
    set f: Field | true :: FieldName(f)
  }

  ghost function FieldNamed(name: string): (f: Field)
    requires name in FieldNames()
    ensures FieldName(f) == name
  {
    var f: Field :| FieldName(f) == name;
    f
  }

  function FieldValue(c: Core, f: Field): Value {
    match f
    case Programs => Table(c.programs, ProgramValue)
    case Sessions => Table(c.sessions, SessionValue)
    case Continuations => Table(c.continuations, ContinuationValue)
    case Requests => Table(c.requests, LogicalRequestValue)
    case Attempts => Table(c.attempts, AttemptValue)
    case Phases => Table(c.phases, PhaseValue)
    case States => Table(c.states, ReusableStateValue)
    case Replicas => Table(c.replicas, StateReplicaValue)
    case Bindings => Table(c.bindings, BindingValue)
    case EvidenceRecords => Table(c.evidence, EvidenceValue)
    case Outputs => Table(c.outputs, OutputValue)
    case Events => Table(c.events, SemanticEventValue)
    case EventOrder => OrderValue(c.eventOrder)
    case CurrentBindings => Table(c.currentBinding, Text)
    case CurrentEpochs => Table(c.currentEpoch, Int)
    case LastAllocated => Table(c.lastAllocated, Int)
  }

  /** The state a snapshot holds: one value per field. */
  function CoreValues(c: Core): map<Field, Value> {
    map f: Field | true :: FieldValue(c, f)
  }

  lemma FirstTablesInjective(c: Core, d: Core)
    requires forall f :: FieldValue(c, f) == FieldValue(d, f)
    ensures c.programs == d.programs && c.sessions == d.sessions
    ensures c.continuations == d.continuations && c.requests == d.requests
  {
    hide Table, OrderValue, Inverts, ProgramValue, SessionValue, ContinuationValue, LogicalRequestValue,
        ReadProgram, ReadSession, ReadContinuation, ReadLogicalRequest;
    assert FieldValue(c, Programs) == FieldValue(d, Programs);
    assert FieldValue(c, Sessions) == FieldValue(d, Sessions);
    assert FieldValue(c, Continuations) == FieldValue(d, Continuations);
    assert FieldValue(c, Requests) == FieldValue(d, Requests);
    ProgramReads();
    TableInjective(c.programs, d.programs, ReadProgram, ProgramValue);
    SessionReads();
    TableInjective(c.sessions, d.sessions, ReadSession, SessionValue);
    ContinuationReads();
    TableInjective(c.continuations, d.continuations, ReadContinuation, ContinuationValue);
    LogicalRequestReads();
    TableInjective(c.requests, d.requests, ReadLogicalRequest, LogicalRequestValue);
  }

  lemma SecondTablesInjective(c: Core, d: Core)
    requires forall f :: FieldValue(c, f) == FieldValue(d, f)
    ensures c.attempts == d.attempts && c.phases == d.phases
    ensures c.states == d.states && c.replicas == d.replicas
  {
    hide Table, OrderValue, Inverts, AttemptValue, PhaseValue, ReusableStateValue, StateReplicaValue,
        ReadAttempt, ReadPhase, ReadReusableState, ReadStateReplica;
    assert FieldValue(c, Attempts) == FieldValue(d, Attempts);
    assert FieldValue(c, Phases) == FieldValue(d, Phases);
    assert FieldValue(c, States) == FieldValue(d, States);
    assert FieldValue(c, Replicas) == FieldValue(d, Replicas);
    AttemptReads();
    TableInjective(c.attempts, d.attempts, ReadAttempt, AttemptValue);
    PhaseReads();
    TableInjective(c.phases, d.phases, ReadPhase, PhaseValue);
    ReusableStateReads();
    TableInjective(c.states, d.states, ReadReusableState, ReusableStateValue);
    StateReplicaReads();
    TableInjective(c.replicas, d.replicas, ReadStateReplica, StateReplicaValue);
  }

  lemma ThirdTablesInjective(c: Core, d: Core)
    requires forall f :: FieldValue(c, f) == FieldValue(d, f)
    ensures c.bindings == d.bindings && c.evidence == d.evidence
    ensures c.outputs == d.outputs && c.events == d.events
  {
    hide Table, OrderValue, Inverts, BindingValue, EvidenceValue, OutputValue, SemanticEventValue,
        ReadBinding, ReadEvidence, ReadOutput, ReadSemanticEvent;
    assert FieldValue(c, Bindings) == FieldValue(d, Bindings);
    assert FieldValue(c, EvidenceRecords) == FieldValue(d, EvidenceRecords);
    assert FieldValue(c, Outputs) == FieldValue(d, Outputs);
    assert FieldValue(c, Events) == FieldValue(d, Events);
    BindingReads();
    TableInjective(c.bindings, d.bindings, ReadBinding, BindingValue);
    EvidenceReads();
    TableInjective(c.evidence, d.evidence, ReadEvidence, EvidenceValue);
    OutputReads();
    TableInjective(c.outputs, d.outputs, ReadOutput, OutputValue);
    SemanticEventReads();
    TableInjective(c.events, d.events, ReadSemanticEvent, SemanticEventValue);
  }

  lemma SubjectMapsInjective(c: Core, d: Core)
    requires forall f :: FieldValue(c, f) == FieldValue(d, f)
    ensures c.currentBinding == d.currentBinding && c.currentEpoch == d.currentEpoch
    ensures c.lastAllocated == d.lastAllocated && c.eventOrder == d.eventOrder
  {
    hide Table, OrderValue;
    assert FieldValue(c, CurrentBindings) == FieldValue(d, CurrentBindings);
    assert FieldValue(c, CurrentEpochs) == FieldValue(d, CurrentEpochs);
    assert FieldValue(c, LastAllocated) == FieldValue(d, LastAllocated);
    assert FieldValue(c, EventOrder) == FieldValue(d, EventOrder);
    TableInjective(c.currentBinding, d.currentBinding, ReadText, Text);
    TableInjective(c.currentEpoch, d.currentEpoch, ReadInt, Int);
    TableInjective(c.lastAllocated, d.lastAllocated, ReadInt, Int);
    OrderInjective(c.eventOrder, d.eventOrder);
  }

  /** The sixteen values determine the core. */
  lemma CoreValuesInjective(c: Core, d: Core)
    requires CoreValues(c) == CoreValues(d)
    ensures c == d
  {
    forall f: Field ensures FieldValue(c, f) == FieldValue(d, f) {
      assert CoreValues(c)[f] == CoreValues(d)[f];
    }
    hide FieldValue, CoreValues;
    FirstTablesInjective(c, d);
    SecondTablesInjective(c, d);
    ThirdTablesInjective(c, d);
    SubjectMapsInjective(c, d);
  }

  lemma TextStorable()
    ensures forall s :: C.Storable(Text(s))
    ensures forall i :: C.Storable(Int(i))
  {
  }

  lemma OrderStorable(q: seq<Id>)
    ensures C.Storable(OrderValue(q))
  {
  }

  lemma FieldStorable(c: Core, f: Field)
    ensures C.Storable(FieldValue(c, f))
  {
    hide C.Storable, Table;
    match f
    case Programs =>
      forall x ensures C.Storable(ProgramValue(x)) { ProgramStorable(x); }
      TableStorable(c.programs, ProgramValue);
    case Sessions =>
      forall x ensures C.Storable(SessionValue(x)) { SessionStorable(x); }
      TableStorable(c.sessions, SessionValue);
    case Continuations =>
      forall x ensures C.Storable(ContinuationValue(x)) { ContinuationStorable(x); }
      TableStorable(c.continuations, ContinuationValue);
    case Requests =>
      forall x ensures C.Storable(LogicalRequestValue(x)) { LogicalRequestStorable(x); }
      TableStorable(c.requests, LogicalRequestValue);
    case Attempts =>
      forall x ensures C.Storable(AttemptValue(x)) { AttemptStorable(x); }
      TableStorable(c.attempts, AttemptValue);
    case Phases =>
      forall x ensures C.Storable(PhaseValue(x)) { PhaseStorable(x); }
      TableStorable(c.phases, PhaseValue);
    case States =>
      forall x ensures C.Storable(ReusableStateValue(x)) { ReusableStateStorable(x); }
      TableStorable(c.states, ReusableStateValue);
    case Replicas =>
      forall x ensures C.Storable(StateReplicaValue(x)) { StateReplicaStorable(x); }
      TableStorable(c.replicas, StateReplicaValue);
    case Bindings =>
      forall x ensures C.Storable(BindingValue(x)) { BindingStorable(x); }
      TableStorable(c.bindings, BindingValue);
    case EvidenceRecords =>
      forall x ensures C.Storable(EvidenceValue(x)) { EvidenceStorable(x); }
      TableStorable(c.evidence, EvidenceValue);
    case Outputs =>
      forall x ensures C.Storable(OutputValue(x)) { OutputStorable(x); }
      TableStorable(c.outputs, OutputValue);
    case Events =>
      forall x ensures C.Storable(SemanticEventValue(x)) { SemanticEventStorable(x); }
      TableStorable(c.events, SemanticEventValue);
    case EventOrder => OrderStorable(c.eventOrder);
    case CurrentBindings => TextStorable(); TableStorable(c.currentBinding, Text);
    case CurrentEpochs => TextStorable(); TableStorable(c.currentEpoch, Int);
    case LastAllocated => TextStorable(); TableStorable(c.lastAllocated, Int);
  }

  // ---------- snapshot and restore ----------

  /** The canonical document, for one iteration order of sets and dictionaries. */
  ghost function SnapshotCore(c: Core, order: C.IterationOrder, le: (C.Json, C.Json) -> bool): C.Json
    requires C.Enumerates(order)
  {
    C.JObj(map["schema" := C.JText(SNAPSHOT_SCHEMA), "state" := C.JObj(SnapshotState(c, order, le))])
  }

  ghost function SnapshotState(c: Core, order: C.IterationOrder, le: (C.Json, C.Json) -> bool): map<string, C.Json>
    requires C.Enumerates(order)
  {
    map name | name in FieldNames() :: C.Encode(FieldValue(c, FieldNamed(name)), order, le)
  }

  ghost predicate HasFields(state: map<string, C.Json>) {
    state.Keys == FieldNames()
  }

  ghost predicate HasState(doc: C.Json) {
    && doc.JObj? && "schema" in doc.members && doc.members["schema"] == C.JText(SNAPSHOT_SCHEMA)
    && "state" in doc.members && doc.members["state"].JObj? && HasFields(doc.members["state"].members)
  }

  /** Field by field, the document decodes to the values of `c`. */
  ghost predicate Depicts(doc: C.Json, c: Core) {
    HasState(doc) && forall f: Field :: Holds(doc, f, FieldValue(c, f))
  }

  function Entry(doc: C.Json, f: Field): C.Json
    requires HasState(doc)
  {
    assert FieldName(f) in FieldNames();
    doc.members["state"].members[FieldName(f)]
  }

  /** The field decodes to `v`. */
  ghost predicate Holds(doc: C.Json, f: Field, v: Value)
    requires HasState(doc)
  {
    C.Decode(Entry(doc, f)) == Some(v)
  }

  /**
   The schema and shape checks, then the oracle; any failure is a ValueError. The shape a document
   must have is stated by its result: some core has exactly the decoded values.
   */
  ghost function RestoreCore(doc: C.Json, valid: SemanticValidity): Result<Core> {
    if exists c :: Depicts(doc, c) && OracleAccepts(c, valid) then
      var c :| Depicts(doc, c) && OracleAccepts(c, valid);
      Ok(c)
    else Err(ValueError)
  }

  /** A document depicts at most one core, so restoring is deterministic. */
  lemma DepictsOne(doc: C.Json, c: Core, d: Core)
    requires Depicts(doc, c) && Depicts(doc, d)
    ensures c == d
  {
    hide FieldValue, FieldNames, C.Decode;
    forall f: Field ensures FieldValue(c, f) == FieldValue(d, f) {
      assert Holds(doc, f, FieldValue(c, f)) && Holds(doc, f, FieldValue(d, f));
    }
    assert CoreValues(c) == CoreValues(d);
    CoreValuesInjective(c, d);
  }

  lemma SnapshotEntry(c: Core, f: Field, order: C.IterationOrder, le: (C.Json, C.Json) -> bool)
    requires C.Enumerates(order)
    ensures FieldName(f) in SnapshotState(c, order, le)
    ensures SnapshotState(c, order, le)[FieldName(f)] == C.Encode(FieldValue(c, f), order, le)
  {
    assert FieldName(f) in FieldNames();
    FieldNamesDiffer(f, FieldNamed(FieldName(f)));
    hide FieldName, FieldValue, FieldNames, FieldNamed;
    hide C.Encode;
  }

  lemma SnapshotDepicts(c: Core, order: C.IterationOrder, le: (C.Json, C.Json) -> bool)
    requires C.Enumerates(order)
    ensures Depicts(SnapshotCore(c, order, le), c)
  {
    hide FieldValue, FieldName, FieldNames, FieldNamed;
    hide C.Encode, C.Decode;
    var doc := SnapshotCore(c, order, le);
    var state := SnapshotState(c, order, le);
    assert doc.members["state"] == C.JObj(state) && doc.members["schema"] == C.JText(SNAPSHOT_SCHEMA);
    forall f: Field ensures FieldName(f) in state && C.Decode(state[FieldName(f)]) == Some(FieldValue(c, f)) {
      SnapshotEntry(c, f, order, le);
      FieldStorable(c, f);
      C.DecodeEncode(FieldValue(c, f), order, le);
    }
  }

  /** Restoring a snapshot gives the same core back exactly when the oracle accepts that core. */
  lemma RestoreOfSnapshot(c: Core, order: C.IterationOrder, le: (C.Json, C.Json) -> bool, valid: SemanticValidity)
    requires C.Enumerates(order)
    ensures RestoreCore(SnapshotCore(c, order, le), valid) == if OracleAccepts(c, valid) then Ok(c) else Err(ValueError)
  {
    hide OracleAccepts, Depicts, HasState;
    SnapshotDepicts(c, order, le);
    var doc := SnapshotCore(c, order, le);
    forall d | Depicts(doc, d) ensures d == c {
      DepictsOne(doc, c, d);
    }
  }

  /** Two snapshots of one core agree, whatever order its sets and dictionaries are walked in. */
  lemma SnapshotForgetsOrder(c: Core, o1: C.IterationOrder, o2: C.IterationOrder, le: (C.Json, C.Json) -> bool)
    requires C.Enumerates(o1) && C.Enumerates(o2) && C.Canonical(le)
    ensures SnapshotCore(c, o1, le) == SnapshotCore(c, o2, le)
  {
    hide FieldValue, FieldName, FieldNames, FieldNamed;
    hide C.Encode;
    var s1, s2 := SnapshotState(c, o1, le), SnapshotState(c, o2, le);
    forall n | n in s1 ensures n in s2 && s1[n] == s2[n] {
      var f: Field :| FieldName(f) == n;
      SnapshotEntry(c, f, o1, le);
      SnapshotEntry(c, f, o2, le);
      FieldStorable(c, f);
      C.EncodeForgetsOrder(FieldValue(c, f), o1, o2, le);
    }
    assert s1 == s2;
  }

  /** Equal snapshots come from equal cores. */
  lemma SnapshotsDiffer(c: Core, d: Core, order: C.IterationOrder, le: (C.Json, C.Json) -> bool)
    requires C.Enumerates(order) && SnapshotCore(c, order, le) == SnapshotCore(d, order, le)
    ensures c == d
  {
    SnapshotDepicts(c, order, le);
    SnapshotDepicts(d, order, le);
    DepictsOne(SnapshotCore(c, order, le), c, d);
  }
}
