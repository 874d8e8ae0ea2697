/** Restoring a snapshot step by step: decode each field, read it back typed, check identities, fill the fields. */
module Restore {
  import opened Entities
  import opened CoreSpec
  import opened Images
  import opened Oracle
  import opened OracleFacts
  import opened OracleLoops
  import opened Readers
  import opened Snapshot
  import opened StateCompatibility

  /** The loop over one decoded dictionary: its keys must be texts and its values entities of one type. */
  method ReadTable<T(==,!new)>(v: Value, read: Value -> Option<T>, ghost image: T -> Value)
    returns (m: Option<map<Id, T>>)
    requires Inverts(read, image)
    ensures m.Some? ==> v == Table(m.value, image)
    ensures m.None? ==> forall n :: v != Table(n, image)
  {
    if !v.Dict? {
      return None;
    }
    var table: map<Id, T> := map[];
    var todo := v.entries.Keys;
    while todo != {}
      invariant todo <= v.entries.Keys
      invariant forall k :: k in table <==> C.Text(k) in v.entries && C.Text(k) !in todo
      invariant forall k :: k in table ==> v.entries[C.Text(k)] == image(table[k])
      invariant forall key :: key in v.entries && key !in todo ==> key.Text?
      decreases todo
    {
      var key :| key in todo;
      if !key.Text? {
        return None;
      }
      var entity := read(v.entries[key]);
      if entity.None? {
        EntriesAreImages(v, read, image, key);
        return None;
      }
      assert key == C.Text(key.s);
      table := table[key.s := entity.value];
      todo := todo - {key};
    }
    TableOf(v, table, image);
    m := Some(table);
  }

  lemma EntriesAreImages<T(!new)>(v: Value, read: Value -> Option<T>, image: T -> Value, key: Value)
    requires Inverts(read, image) && v.Dict? && key in v.entries && key.Text? && read(v.entries[key]).None?
    ensures forall n: map<Id, T> :: v != Table(n, image)
  {
    forall n: map<Id, T> ensures v != Table(n, image) {
      if v == Table(n, image) {
        ImagesRead(n, read, image, key);
      }
    }
  }

  lemma ImagesRead<T(!new)>(n: map<Id, T>, read: Value -> Option<T>, image: T -> Value, key: Value)
    requires Inverts(read, image) && key in Table(n, image).entries && key.Text?
    ensures read(Table(n, image).entries[key]).Some?
  {
    TableEntry(n, image, key.s);
    assert key == C.Text(key.s);
    assert read(image(n[key.s])) == Some(n[key.s]);
  }

  lemma TableOf<T(!new)>(v: Value, table: map<Id, T>, image: T -> Value)
    requires v.Dict? && (forall k :: k in table <==> C.Text(k) in v.entries)
    requires forall k :: k in table ==> v.entries[C.Text(k)] == image(table[k])
    requires forall key :: key in v.entries ==> key.Text?
    ensures v == Table(table, image)
  {
    var t := Table(table, image).entries;
    forall key ensures key in v.entries <==> key in t {
      if key in v.entries {
        assert key == C.Text(key.s) && key.s in table;
      }
    }
    forall key | key in t ensures v.entries[key] == t[key] {
      assert key == C.Text(key.s);
    }
    assert v.entries == t;
  }

  method ReadOrder(v: Value) returns (order: Option<seq<Id>>)
    ensures order.Some? ==> v == OrderValue(order.value)
    ensures order.None? ==> forall q :: v != OrderValue(q)
  {
    if !v.List? {
      return None;
    }
    var q: seq<Id> := [];
    for k := 0 to |v.elements|
      invariant |q| == k && forall i :: 0 <= i < k ==> v.elements[i] == C.Text(q[i])
    {
      if !v.elements[k].Text? {
        ItemsAreTexts(v, k);
        return None;
      }
      q := q + [v.elements[k].s];
    }
    assert v.elements == OrderValue(q).elements;
    order := Some(q);
  }

  lemma ItemsAreTexts(v: Value, k: nat)
    requires v.List? && k < |v.elements| && !v.elements[k].Text?
    ensures forall q :: v != OrderValue(q)
  {
    forall q ensures v != OrderValue(q) {
    }
  }

  // ---------- the fields of a document ----------

  const FIELD_NAMES: set<string> := {
    "programs", "sessions", "continuations", "requests", "attempts", "phases", "states", "replicas",
    "bindings", "evidence", "outputs", "events", "event_order",
    "current_binding_by_subject", "current_epoch_by_subject", "last_allocated_epoch_by_subject"}

  lemma FieldNamesAre()
    ensures FIELD_NAMES == FieldNames()
  {
    forall name | name in FieldNames() ensures name in FIELD_NAMES {
      var f: Field :| FieldName(f) == name;
    }
    forall name | name in FIELD_NAMES ensures name in FieldNames() {
      assert FieldName(Programs) in FieldNames(); assert FieldName(Sessions) in FieldNames();
      assert FieldName(Continuations) in FieldNames(); assert FieldName(Requests) in FieldNames();
      assert FieldName(Attempts) in FieldNames(); assert FieldName(Phases) in FieldNames();
      assert FieldName(States) in FieldNames(); assert FieldName(Replicas) in FieldNames();
      assert FieldName(Bindings) in FieldNames(); assert FieldName(EvidenceRecords) in FieldNames();
      assert FieldName(Outputs) in FieldNames(); assert FieldName(Events) in FieldNames();
      assert FieldName(EventOrder) in FieldNames(); assert FieldName(CurrentBindings) in FieldNames();
      assert FieldName(CurrentEpochs) in FieldNames(); assert FieldName(LastAllocated) in FieldNames();
    }
  }

  /** One field of the document, read as a table of entities of one type. */
  method ReadField<T(==,!new)>(doc: C.Json, f: Field, read: Value -> Option<T>, ghost image: T -> Value)
    returns (m: Option<map<Id, T>>)
    requires HasState(doc) && Inverts(read, image)
    ensures m.Some? ==> Holds(doc, f, Table(m.value, image))
    ensures m.None? ==> forall n :: !Holds(doc, f, Table(n, image))
  {
    hide C.Decode, Table, FieldValue, Inverts, HasState;
    var v := C.Decode(Entry(doc, f));
    if v.None? {
      return None;
    }
    m := ReadTable(v.value, read, image);
  }

  method ReadOrderField(doc: C.Json) returns (order: Option<seq<Id>>)
    requires HasState(doc)
    ensures order.Some? ==> Holds(doc, EventOrder, OrderValue(order.value))
    ensures order.None? ==> forall q :: !Holds(doc, EventOrder, OrderValue(q))
  {
    hide C.Decode, HasState;
    var v := C.Decode(Entry(doc, EventOrder));
    if v.None? {
      return None;
    }
    order := ReadOrder(v.value);
  }

  // ---------- the document ----------

  lemma ScalarsInvert()
    ensures Inverts(ReadText, Text) && Inverts(ReadInt, Int)
  {
  }

  predicate HasShape(doc: C.Json) {
    && doc.JObj? && "schema" in doc.members && doc.members["schema"] == C.JText(SNAPSHOT_SCHEMA)
    && "state" in doc.members && doc.members["state"].JObj? && doc.members["state"].members.Keys == FIELD_NAMES
  }

  lemma ShapeIsState(doc: C.Json)
    ensures HasShape(doc) <==> HasState(doc)
  {
    FieldNamesAre();
  }

  /** `Depicts`, field by field. */
  ghost predicate HoldsAll(doc: C.Json, c: Core) {
    && HasState(doc)
    && Holds(doc, Programs, Table(c.programs, ProgramValue))
    && Holds(doc, Sessions, Table(c.sessions, SessionValue))
    && Holds(doc, Continuations, Table(c.continuations, ContinuationValue))
    && Holds(doc, Requests, Table(c.requests, LogicalRequestValue))
    && Holds(doc, Attempts, Table(c.attempts, AttemptValue))
    && Holds(doc, Phases, Table(c.phases, PhaseValue))
    && Holds(doc, States, Table(c.states, ReusableStateValue))
    && Holds(doc, Replicas, Table(c.replicas, StateReplicaValue))
    && Holds(doc, Bindings, Table(c.bindings, BindingValue))
    && Holds(doc, EvidenceRecords, Table(c.evidence, EvidenceValue))
    && Holds(doc, Outputs, Table(c.outputs, OutputValue))
    && Holds(doc, Events, Table(c.events, SemanticEventValue))
    && Holds(doc, CurrentBindings, Table(c.currentBinding, Text))
    && Holds(doc, CurrentEpochs, Table(c.currentEpoch, Int))
    && Holds(doc, LastAllocated, Table(c.lastAllocated, Int))
    && Holds(doc, EventOrder, OrderValue(c.eventOrder))
  }

  lemma DepictsHoldsAll(doc: C.Json, c: Core)
    ensures Depicts(doc, c) <==> HoldsAll(doc, c)
  {
    hide Holds, HasState, Table, OrderValue;
    if Depicts(doc, c) {
      assert Holds(doc, Programs, FieldValue(c, Programs));
      assert Holds(doc, Sessions, FieldValue(c, Sessions));
      assert Holds(doc, Continuations, FieldValue(c, Continuations));
      assert Holds(doc, Requests, FieldValue(c, Requests));
      assert Holds(doc, Attempts, FieldValue(c, Attempts));
      assert Holds(doc, Phases, FieldValue(c, Phases));
      assert Holds(doc, States, FieldValue(c, States));
      assert Holds(doc, Replicas, FieldValue(c, Replicas));
      assert Holds(doc, Bindings, FieldValue(c, Bindings));
      assert Holds(doc, EvidenceRecords, FieldValue(c, EvidenceRecords));
      assert Holds(doc, Outputs, FieldValue(c, Outputs));
      assert Holds(doc, Events, FieldValue(c, Events));
      assert Holds(doc, CurrentBindings, FieldValue(c, CurrentBindings));
      assert Holds(doc, CurrentEpochs, FieldValue(c, CurrentEpochs));
      assert Holds(doc, LastAllocated, FieldValue(c, LastAllocated));
      assert Holds(doc, EventOrder, FieldValue(c, EventOrder));
    }
  }

  lemma SameDepicted(doc: C.Json, c: Core)
    requires Depicts(doc, c)
    ensures forall d :: Depicts(doc, d) ==> d == c
  {
    hide Depicts, HasState;
    forall d | Depicts(doc, d) ensures d == c {
      DepictsOne(doc, c, d);
    }
  }

  /** The shape checks, the typed reading of every field, and the check of identifiers. */
  method ReadState(doc: C.Json) returns (r: Option<Core>)
    ensures r.Some? ==> Depicts(doc, r.value)
    ensures r.None? ==> forall c :: Depicts(doc, c) ==> !GlobalIdentityUniqueness(c)
  {
    hide Depicts, GlobalIdentityUniqueness, Holds, Table, OrderValue, FieldValue, HasState, HasShape, Inverts;
    hide ReadProgram, ProgramValue, ReadSession, SessionValue, ReadContinuation, ContinuationValue,
        ReadLogicalRequest, LogicalRequestValue, ReadAttempt, AttemptValue, ReadPhase, PhaseValue, ReadReusableState,
        ReusableStateValue, ReadStateReplica, StateReplicaValue, ReadBinding, BindingValue, ReadEvidence,
        EvidenceValue, ReadOutput, OutputValue, ReadSemanticEvent, SemanticEventValue;
    ShapeIsState(doc);
    forall c ensures Depicts(doc, c) <==> HoldsAll(doc, c) {
      DepictsHoldsAll(doc, c);
    }
    if !HasShape(doc) {
      return None;
    }
    ProgramReads();
    var programs := ReadField(doc, Programs, ReadProgram, ProgramValue);
    if programs.None? {
      return None;
    }
    SessionReads();
    var sessions := ReadField(doc, Sessions, ReadSession, SessionValue);
    if sessions.None? {
      return None;
    }
    ContinuationReads();
    var continuations := ReadField(doc, Continuations, ReadContinuation, ContinuationValue);
    if continuations.None? {
      return None;
    }
    LogicalRequestReads();
    var requests := ReadField(doc, Requests, ReadLogicalRequest, LogicalRequestValue);
    if requests.None? {
      return None;
    }
    AttemptReads();
    var attempts := ReadField(doc, Attempts, ReadAttempt, AttemptValue);
    if attempts.None? {
      return None;
    }
    PhaseReads();
    var phases := ReadField(doc, Phases, ReadPhase, PhaseValue);
    if phases.None? {
      return None;
    }
    ReusableStateReads();
    var states := ReadField(doc, States, ReadReusableState, ReusableStateValue);
    if states.None? {
      return None;
    }
    StateReplicaReads();
    var replicas := ReadField(doc, Replicas, ReadStateReplica, StateReplicaValue);
    if replicas.None? {
      return None;
    }
    BindingReads();
    var bindings := ReadField(doc, Bindings, ReadBinding, BindingValue);
    if bindings.None? {
      return None;
    }
    EvidenceReads();
    var evidence := ReadField(doc, EvidenceRecords, ReadEvidence, EvidenceValue);
    if evidence.None? {
      return None;
    }
    OutputReads();
    var outputs := ReadField(doc, Outputs, ReadOutput, OutputValue);
    if outputs.None? {
      return None;
    }
    SemanticEventReads();
    var events := ReadField(doc, Events, ReadSemanticEvent, SemanticEventValue);
    if events.None? {
      return None;
    }
    ScalarsInvert();
    var currentBinding := ReadField(doc, CurrentBindings, ReadText, Text);
    if currentBinding.None? {
      return None;
    }
    var currentEpoch := ReadField(doc, CurrentEpochs, ReadInt, Int);
    if currentEpoch.None? {
      return None;
    }
    var lastAllocated := ReadField(doc, LastAllocated, ReadInt, Int);
    if lastAllocated.None? {
      return None;
    }
    var eventOrder := ReadOrderField(doc);
    if eventOrder.None? {
      return None;
    }
    var core := Core(
      programs.value, sessions.value, continuations.value, requests.value, attempts.value, phases.value,
      states.value, replicas.value, bindings.value, evidence.value, outputs.value, events.value, eventOrder.value,
      currentBinding.value, currentEpoch.value, lastAllocated.value);
    SameDepicted(doc, core);
    var unique := CheckGlobalIdentityUniqueness(core);
    r := if unique then Some(core) else None;
  }

  /** Restoring is that reading, followed by the oracle. */
  lemma RestoreIsReadThenOracle(doc: C.Json, r: Option<Core>, valid: SemanticValidity)
    requires r.Some? ==> Depicts(doc, r.value)
    requires r.None? ==> forall c :: Depicts(doc, c) ==> !GlobalIdentityUniqueness(c)
    ensures RestoreCore(doc, valid) == if r.Some? && OracleAccepts(r.value, valid) then Ok(r.value) else Err(ValueError)
  {
    hide Depicts, GlobalIdentityUniqueness;
    if r.Some? {
      SameDepicted(doc, r.value);
    }
    forall c | OracleAccepts(c, valid) ensures GlobalIdentityUniqueness(c) {
    }
    hide OracleAccepts;
  }

  /** A document restores exactly when it depicts an accountable core, and then to that core. */
  lemma RestoredIsAccountable(doc: C.Json, valid: SemanticValidity)
    ensures RestoreCore(doc, valid).Ok? <==> exists c :: Depicts(doc, c) && Accountable(c)
    ensures RestoreCore(doc, valid).Ok? ==>
              Depicts(doc, RestoreCore(doc, valid).value) && Accountable(RestoreCore(doc, valid).value)
  {
    hide Depicts, OracleAccepts, Accountable;
    forall c ensures OracleAccepts(c, valid) <==> Accountable(c) {
      AcceptedMeansAccountable(c, valid);
    }
  }

  /** Whatever restores carries the schema and exactly the sixteen fields of a core. */
  lemma RestoredHasShape(doc: C.Json, valid: SemanticValidity)
    requires RestoreCore(doc, valid).Ok?
    ensures doc.JObj? && "schema" in doc.members && doc.members["schema"] == C.JText("cadi.core.snapshot.v1")
    ensures "state" in doc.members && doc.members["state"].JObj?
    ensures doc.members["state"].members.Keys ==
            {"programs", "sessions", "continuations", "requests", "attempts", "phases", "states", "replicas",
             "bindings", "evidence", "outputs", "events", "event_order", "current_binding_by_subject",
             "current_epoch_by_subject", "last_allocated_epoch_by_subject"}
  {
    hide OracleAccepts;
    ShapeIsState(doc);
  }
}
