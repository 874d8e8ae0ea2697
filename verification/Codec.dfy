/**
 The tagged encoding behind snapshots and traces: Python values to JSON trees and back. `le` is the
 order of the canonical JSON text, any total order that tells different trees apart; `order` is the
 iteration order of sets and dictionaries, any function that lists each set without repetition.
 */
module Codec {
  import opened Entities
  import opened Sorting

  /** The record classes a document may name. */
  datatype Class =
    | ProgramClass | SessionClass | ContinuationClass | LogicalRequestClass | AttemptClass | PhaseClass
    | ReusableStateClass | StateReplicaClass | BindingClass | EvidenceClass | OutputClass | SemanticEventClass

  function ClassName(c: Class): string {
    match c
    case ProgramClass => "Program"
    case SessionClass => "Session"
    case ContinuationClass => "Continuation"
    case LogicalRequestClass => "LogicalRequest"
    case AttemptClass => "Attempt"
    case PhaseClass => "Phase"
    case ReusableStateClass => "ReusableState"
    case StateReplicaClass => "StateReplica"
    case BindingClass => "Binding"
    case EvidenceClass => "Evidence"
    case OutputClass => "Output"
    case SemanticEventClass => "SemanticEvent"
  }

  /** The enumerations a document may name. */
  datatype Enumeration =
    | ProgramStatusType | ContinuationLifecycleType | RequestStatusType | ExecutionStatusType | AttemptAuthorityType
    | PhaseTypeType | PhaseStatusType | StateLifecycleType | StateValidityType | ReplicaStatusType
    | BindingStatusType | EvidenceAuthorityType | EvidenceStatusType | ReconcileOutcomeType

  function TypeName(t: Enumeration): string {
    match t
    case ProgramStatusType => "ProgramStatus"
    case ContinuationLifecycleType => "ContinuationLifecycle"
    case RequestStatusType => "RequestStatus"
    case ExecutionStatusType => "ExecutionStatus"
    case AttemptAuthorityType => "AttemptAuthority"
    case PhaseTypeType => "PhaseType"
    case PhaseStatusType => "PhaseStatus"
    case StateLifecycleType => "StateLifecycle"
    case StateValidityType => "StateValidity"
    case ReplicaStatusType => "ReplicaStatus"
    case BindingStatusType => "BindingStatus"
    case EvidenceAuthorityType => "EvidenceAuthority"
    case EvidenceStatusType => "EvidenceStatus"
    case ReconcileOutcomeType => "ReconcileOutcome"
  }

  function ClassNamed(name: string): Option<Class> {
    if name == ClassName(ProgramClass) then Some(ProgramClass)
    else if name == ClassName(SessionClass) then Some(SessionClass)
    else if name == ClassName(ContinuationClass) then Some(ContinuationClass)
    else if name == ClassName(LogicalRequestClass) then Some(LogicalRequestClass)
    else if name == ClassName(AttemptClass) then Some(AttemptClass)
    else if name == ClassName(PhaseClass) then Some(PhaseClass)
    else if name == ClassName(ReusableStateClass) then Some(ReusableStateClass)
    else if name == ClassName(StateReplicaClass) then Some(StateReplicaClass)
    else if name == ClassName(BindingClass) then Some(BindingClass)
    else if name == ClassName(EvidenceClass) then Some(EvidenceClass)
    else if name == ClassName(OutputClass) then Some(OutputClass)
    else if name == ClassName(SemanticEventClass) then Some(SemanticEventClass)
    else None
  }

  function TypeNamed(name: string): Option<Enumeration> {
    if name == TypeName(ProgramStatusType) then Some(ProgramStatusType)
    else if name == TypeName(ContinuationLifecycleType) then Some(ContinuationLifecycleType)
    else if name == TypeName(RequestStatusType) then Some(RequestStatusType)
    else if name == TypeName(ExecutionStatusType) then Some(ExecutionStatusType)
    else if name == TypeName(AttemptAuthorityType) then Some(AttemptAuthorityType)
    else if name == TypeName(PhaseTypeType) then Some(PhaseTypeType)
    else if name == TypeName(PhaseStatusType) then Some(PhaseStatusType)
    else if name == TypeName(StateLifecycleType) then Some(StateLifecycleType)
    else if name == TypeName(StateValidityType) then Some(StateValidityType)
    else if name == TypeName(ReplicaStatusType) then Some(ReplicaStatusType)
    else if name == TypeName(BindingStatusType) then Some(BindingStatusType)
    else if name == TypeName(EvidenceAuthorityType) then Some(EvidenceAuthorityType)
    else if name == TypeName(EvidenceStatusType) then Some(EvidenceStatusType)
    else if name == TypeName(ReconcileOutcomeType) then Some(ReconcileOutcomeType)
    else None
  }

  lemma ClassNamesDiffer(c: Class, d: Class)
    ensures ClassName(c) == ClassName(d) ==> c == d
  {
  }

  lemma TypeNamesDiffer(t: Enumeration, u: Enumeration)
    ensures TypeName(t) == TypeName(u) ==> t == u
  {
  }

  lemma ClassNameTells(c: Class)
    ensures ClassNamed(ClassName(c)) == Some(c)
  {
    hide ClassName;
    forall d | ClassName(d) == ClassName(c) ensures d == c {
      ClassNamesDiffer(c, d);
    }
  }

  lemma TypeNameTells(t: Enumeration)
    ensures TypeNamed(TypeName(t)) == Some(t)
  {
    hide TypeName;
    forall u | TypeName(u) == TypeName(t) ensures u == t {
      TypeNamesDiffer(t, u);
    }
  }

  datatype Value =
    | Null
    | Bool(b: bool)
    | Int(i: int)
    | Float(x: real)
    | Text(s: string)
    | Member(enumType: Enumeration, name: string)
    | FrozenSet(items: set<Value>)
    | Tuple(parts: seq<Value>)
    | List(elements: seq<Value>)
    | Dict(entries: map<Value, Value>)
    | Data(cls: Class, fields: map<string, Value>)

  datatype Json = JNull | JBool(b: bool) | JInt(i: int) | JFloat(x: real) | JText(s: string)
    | JArr(elements: seq<Json>) | JObj(members: map<string, Json>)

  // ---------- the classes and enumerations the codec knows ----------

  /** The fields of a record class, those a constructor call may omit last. */
  function Names(c: Class): seq<string> {
    match c
    case ProgramClass => ["id", "status"]
    case SessionClass => ["id", "program_id"]
    case ContinuationClass => ["id", "session_id", "parent_ids", "lifecycle"]
    case LogicalRequestClass =>
      ["id", "continuation_id", "status", "current_attempt_id", "committed_attempt_id", "authoritative_output_id"]
    case AttemptClass => ["id", "request_id", "generation", "execution_status", "authority_status"]
    case PhaseClass => ["id", "attempt_id", "ordinal", "phase_type", "status"]
    case ReusableStateClass =>
      ["id", "origin_type", "origin_id", "origin_continuation_id", "origin_request_id", "producer_attempt_id",
       "semantic_type", "representation", "lifecycle", "validity", "derived_from", "producer_phase_id"]
    case StateReplicaClass => ["id", "state_id", "location_id", "status", "binding_id", "binding_epoch"]
    case BindingClass => ["id", "subject_id", "location_id", "base_epoch", "epoch", "status"]
    case EvidenceClass =>
      ["id", "claim", "source", "authority", "status", "observed_at", "scope", "valid_until", "confidence",
       "derived_from", "derivation_rule", "claim_key", "claim_value"]
    case OutputClass => ["id", "attempt_id", "terminal", "evidence_ids"]
    case SemanticEventClass => ["id", "kind", "subject_type", "subject_id", "payload"]
  }

  /** The values the last fields take when a constructor call omits them. */
  function DefaultValues(c: Class): (r: seq<Value>)
    ensures |r| <= |Names(c)|
  {
    match c
    case ProgramClass => [Member(ProgramStatusType, "CREATED")]
    case SessionClass => []
    case ContinuationClass => [FrozenSet({}), Member(ContinuationLifecycleType, "CREATED")]
    case LogicalRequestClass => [Member(RequestStatusType, "CREATED"), Null, Null, Null]
    case AttemptClass => [Member(ExecutionStatusType, "CREATED"), Member(AttemptAuthorityType, "NONE")]
    case PhaseClass => [Member(PhaseStatusType, "CREATED")]
    case ReusableStateClass =>
      [Null, Null, Text("PREFIX"), Text("OPAQUE"), Member(StateLifecycleType, "TERMINAL"),
       Member(StateValidityType, "VALID"), FrozenSet({}), Null]
    case StateReplicaClass => [Member(ReplicaStatusType, "MATERIALIZING"), Null, Null]
    case BindingClass => [Member(BindingStatusType, "PROPOSED")]
    case EvidenceClass => [FrozenSet({}), Null, Null, FrozenSet({}), Null, Null, Null]
    case OutputClass => [FrozenSet({})]
    case SemanticEventClass => [FrozenSet({})]
  }

  /** Names paired with values; a later pair replaces an earlier one of the same name. */
  function Fields(names: seq<string>, values: seq<Value>): (r: map<string, Value>)
    requires |names| == |values|
    ensures forall n :: n in r <==> n in names
  {
    if names == [] then map[] else
      var last := |names| - 1;
      assert names == names[..last] + [names[last]];
      Fields(names[..last], values[..last])[names[last] := values[last]]
  }

  /** A value whose name does not come again is found under it. */
  lemma {:induction false} FieldAt(names: seq<string>, values: seq<Value>, i: nat)
    requires i < |names| == |values| && forall j :: i < j < |names| ==> names[j] != names[i]
    ensures Fields(names, values)[names[i]] == values[i]
  {
    var last := |names| - 1;
    if i < last {
      FieldAt(names[..last], values[..last], i);
    }
  }

  function FieldNames(c: Class): set<string> {
    set n | n in Names(c)
  }

  function RequiredFields(c: Class): set<string> {
    var required := Names(c)[..|Names(c)| - |DefaultValues(c)|];
    set n | n in required
  }

  /** The fields a constructor call may omit, with the values they then take. */
  function Defaults(c: Class): map<string, Value> {
    Fields(Names(c)[|Names(c)| - |DefaultValues(c)|..], DefaultValues(c))
  }

  lemma DefaultsAreFields(c: Class)
    ensures RequiredFields(c) <= FieldNames(c) && Defaults(c).Keys <= FieldNames(c)
  {
    hide Names, DefaultValues;
    var cut := |Names(c)| - |DefaultValues(c)|;
    assert forall n :: n in Names(c)[..cut] ==> n in Names(c);
    assert forall n :: n in Names(c)[cut..] ==> n in Names(c);
  }

  function Members(t: Enumeration): set<string> {
    match t
    case ProgramStatusType => {"CREATED", "RUNNING", "COMPLETED", "FAILED", "CANCELLED"}
    case ContinuationLifecycleType =>
      {"CREATED", "ACTIVE", "WAITING", "SPECULATIVE", "JOINING", "TERMINAL", "ABANDONED"}
    case RequestStatusType => {"CREATED", "READY", "RUNNING", "COMPLETED", "FAILED", "CANCELLED"}
    case ExecutionStatusType => {"CREATED", "DISPATCHED", "RUNNING", "SUCCEEDED", "FAILED", "CANCELLED"}
    case AttemptAuthorityType => {"NONE", "CURRENT", "COMMITTED", "SUPERSEDED"}
    case PhaseTypeType => {"PREFILL", "DECODE", "STATE_PULL", "STATE_TRANSFER", "OTHER"}
    case PhaseStatusType => {"CREATED", "RUNNING", "COMPLETED", "FAILED", "CANCELLED"}
    case StateLifecycleType => {"ACTIVE", "WAITING", "SPECULATIVE", "TERMINAL"}
    case StateValidityType => {"VALID", "INVALID"}
    case ReplicaStatusType => {"MATERIALIZING", "VALID", "STALE", "TRANSFERRING", "EVICTING", "LOST", "INVALID"}
    case BindingStatusType => {"PROPOSED", "ACTIVE", "MIGRATING", "SUPERSEDED", "RELEASED", "INVALID"}
    case EvidenceAuthorityType => {"ESTIMATED", "DERIVED", "EXACT_OBSERVATION", "AUTHORITATIVE"}
    case EvidenceStatusType => {"VALID", "STALE", "UNKNOWN", "FAILED", "AMBIGUOUS"}
    case ReconcileOutcomeType =>
      {"MATCHED", "WAIT", "RETRY", "RECOMPUTE", "MIGRATE", "REJECT", "REPAIR", "FAIL", "AMBIGUOUS"}
  }

  /** The one constructor check: an Evidence claim key and value come together, both non-empty. */
  predicate ConstructorAccepts(c: Class, fields: map<string, Value>) {
    c == EvidenceClass && "claim_key" in fields && "claim_value" in fields ==>
      && (fields["claim_key"] == Null <==> fields["claim_value"] == Null)
      && (fields["claim_key"] != Null ==>
            && fields["claim_key"].Text? && fields["claim_key"].s != ""
            && fields["claim_value"].Text? && fields["claim_value"].s != "")
  }

  /** `cls(**fields)`, with the defaults filled in. */
  function Construct(c: Class, fields: map<string, Value>): Option<Value> {
    var all := Defaults(c) + fields;
    if RequiredFields(c) <= fields.Keys <= FieldNames(c) && ConstructorAccepts(c, all) then Some(Data(c, all)) else None
  }

  /** What a frozenset or a dictionary key may be. */
  predicate Hashable(v: Value) {
    match v
    case List(_) => false
    case Dict(_) => false
    case Tuple(q) => forall x :: x in q ==> Hashable(x)
    case Data(_, f) => forall n :: n in f ==> Hashable(f[n])
    case _ => true
  }

  /** The values a running core can hold and the encoder takes. */
  predicate Storable(v: Value) {
    match v
    case Member(t, n) => n in Members(t)
    case FrozenSet(s) => forall x :: x in s ==> Storable(x) && Hashable(x)
    case Tuple(q) => forall x :: x in q ==> Storable(x)
    case List(q) => forall x :: x in q ==> Storable(x)
    case Dict(m) => forall k :: k in m ==> Storable(k) && Hashable(k) && Storable(m[k])
    case Data(cls, f) =>
      && f.Keys == FieldNames(cls) && ConstructorAccepts(cls, f)
      && forall n :: n in f ==> Storable(f[n])
    case _ => true
  }

  // ---------- encoding ----------

  type IterationOrder = set<Value> -> seq<Value>

  ghost predicate Enumerates(order: IterationOrder) {
    forall s :: Lists(order(s), s)
  }

  /** A total order that tells different trees apart, like the order of their canonical texts. */
  ghost predicate Canonical(le: (Json, Json) -> bool) {
    Total(le) && forall x, y :: le(x, y) && le(y, x) ==> x == y
  }

  function ByKey(le: (Json, Json) -> bool): ((Json, Json), (Json, Json)) -> bool {
    (a: (Json, Json), b: (Json, Json)) => le(a.0, b.0)
  }

  function Pairs(q: seq<(Json, Json)>): seq<Json> {
    seq(|q|, i requires 0 <= i < |q| => JArr([q[i].0, q[i].1]))
  }

  ghost function Encode(v: Value, order: IterationOrder, le: (Json, Json) -> bool): Json
    requires Enumerates(order)
    decreases v, 1
  {
    match v
    case Null => JNull
    case Bool(b) => JBool(b)
    case Int(i) => JInt(i)
    case Float(x) => JFloat(x)
    case Text(s) => JText(s)
    case Member(t, n) => JObj(map["$enum" := JText(TypeName(t)), "name" := JText(n)])
    case FrozenSet(s) =>
      assert Lists(order(s), s);
      assert forall i :: 0 <= i < |order(s)| ==> order(s)[i] in order(s) && order(s)[i] in s;
      JObj(map["$frozenset" := JArr(Sort(EncodeItems(v, order(s), order, le), le))])
    case Tuple(q) => JObj(map["$tuple" := JArr(EncodeItems(v, q, order, le))])
    case List(q) => JObj(map["$list" := JArr(EncodeItems(v, q, order, le))])
    case Dict(m) =>
      assert Lists(order(m.Keys), m.Keys);
      JObj(map["$dict" := JArr(Pairs(Sort(EncodeEntries(v, order(m.Keys), order, le), ByKey(le))))])
    case Data(cls, f) =>
      JObj(map["$type" := JText(ClassName(cls)), "fields" := JObj(map n | n in f :: Encode(f[n], order, le))])
  }

  /** The parts of `v` encoded one after the other. */
  ghost function EncodeItems(v: Value, q: seq<Value>, order: IterationOrder, le: (Json, Json) -> bool): (r: seq<Json>)
    requires Enumerates(order) && forall i :: 0 <= i < |q| ==> q[i] < v
    ensures |r| == |q| && forall i :: 0 <= i < |q| ==> r[i] == Encode(q[i], order, le)
    decreases v, 0, |q|
  {
    if q == [] then [] else
      [Encode(q[0], order, le)] + EncodeItems(v, q[1..], order, le)
  }

  ghost function EncodeEntries(v: Value, keys: seq<Value>, order: IterationOrder,
      le: (Json, Json) -> bool): (r: seq<(Json, Json)>)
    requires Enumerates(order) && v.Dict? && forall i :: 0 <= i < |keys| ==> keys[i] in v.entries
    ensures |r| == |keys|
    ensures forall i :: 0 <= i < |keys| ==> r[i] == (Encode(keys[i], order, le), Encode(v.entries[keys[i]], order, le))
    decreases v, 0, |keys|
  {
    if keys == [] then [] else
      [(Encode(keys[0], order, le), Encode(v.entries[keys[0]], order, le))] + EncodeEntries(v, keys[1..], order, le)
  }

  // ---------- decoding ----------

  /** What the JSON parser hands over for a tree without tags. */
  function Raw(j: Json): Value {
    match j
    case JNull => Null
    case JBool(b) => Bool(b)
    case JInt(i) => Int(i)
    case JFloat(x) => Float(x)
    case JText(s) => Text(s)
    case JArr(q) => List(seq(|q|, i requires 0 <= i < |q| => Raw(q[i])))
    case JObj(m) => Dict(map k | k in m :: Text(k) := Raw(m[k]))
  }

  /** None stands for any of the exceptions a malformed tree raises. */
  function Decode(j: Json): Option<Value>
    decreases j, 1
  {
    if !j.JObj? then Some(Raw(j)) else
      var m := j.members;
      if "$enum" in m then
        var t := if m["$enum"].JText? then TypeNamed(m["$enum"].s) else None;
        if t.Some? && "name" in m && m["name"].JText? && m["name"].s in Members(t.value)
        then Some(Member(t.value, m["name"].s)) else None
      else if "$frozenset" in m then
        var q := DecodeItems(m["$frozenset"]);
        if q.Some? && (forall x :: x in q.value ==> Hashable(x)) then Some(FrozenSet(set x | x in q.value)) else None
      else if "$tuple" in m then
        var q := DecodeItems(m["$tuple"]);
        if q.Some? then Some(Tuple(q.value)) else None
      else if "$list" in m then
        var q := DecodeItems(m["$list"]);
        if q.Some? then Some(List(q.value)) else None
      else if "$dict" in m then
        var q := DecodePairs(m["$dict"]);
        if q.Some? && (forall p :: p in q.value ==> Hashable(p.0)) then Some(Dict(BuildDict(q.value))) else None
      else if "$type" in m then
        var c := if m["$type"].JText? then ClassNamed(m["$type"].s) else None;
        if c.Some? && "fields" in m && m["fields"].JObj? then
          var f := m["fields"].members;
          if forall n :: n in f ==> Decode(f[n]).Some?
          then Construct(c.value, map n | n in f :: Decode(f[n]).value) else None
        else None
      else if forall k :: k in m ==> Decode(m[k]).Some? then Some(Dict(map k | k in m :: Text(k) := Decode(m[k]).value))
      else None
  }

  /** The items of an array, or the characters of a text. */
  function DecodeItems(j: Json): (r: Option<seq<Value>>)
    ensures j.JArr? && r.Some? ==> |r.value| == |j.elements|
    decreases j, 0
  {
    match j
    case JArr(q) =>
      if forall i :: 0 <= i < |q| ==> Decode(q[i]).Some?
      then Some(seq(|q|, i requires 0 <= i < |q| && Decode(q[i]).Some? => Decode(q[i]).value)) else None
    case JText(s) => Some(seq(|s|, i requires 0 <= i < |s| => Text([s[i]])))
    case _ => None
  }

  function DecodePairs(j: Json): (r: Option<seq<(Value, Value)>>)
    ensures j.JArr? && r.Some? ==> |r.value| == |j.elements|
    decreases j, 0
  {
    match j
    case JArr(q) =>
      if forall i :: 0 <= i < |q| ==> DecodeItems(q[i]).Some? && |DecodeItems(q[i]).value| == 2
      then Some(seq(|q|, i requires 0 <= i < |q| && DecodeItems(q[i]).Some? && |DecodeItems(q[i]).value| == 2
                         => (DecodeItems(q[i]).value[0], DecodeItems(q[i]).value[1])))
      else None
    case JText("") => Some([])
    case _ => None
  }

  /** A dictionary filled from left to right; a later entry replaces an earlier one of the same key. */
  function BuildDict(q: seq<(Value, Value)>): map<Value, Value> {
    if q == [] then map[] else BuildDict(q[..|q| - 1])[q[|q| - 1].0 := q[|q| - 1].1]
  }

  // ---------- decoding undoes encoding ----------

  /** Entries that all come from `m`, and cover it, build `m`. */
  lemma {:induction false} BuildDictOf(q: seq<(Value, Value)>, m: map<Value, Value>)
    requires forall p :: p in q ==> p.0 in m && m[p.0] == p.1
    ensures forall k :: k in BuildDict(q) <==> exists p :: p in q && p.0 == k
    ensures forall k :: k in BuildDict(q) ==> k in m && BuildDict(q)[k] == m[k]
  {
    if q != [] {
      var last, rest := q[|q| - 1], q[..|q| - 1];
      assert q == rest + [last];
      BuildDictOf(rest, m);
    }
  }

  lemma DecodeEncodeItems(v: Value, q: seq<Value>, order: IterationOrder, le: (Json, Json) -> bool)
    requires Enumerates(order) && forall i :: 0 <= i < |q| ==> q[i] < v
    requires forall x :: x in q ==> Decode(Encode(x, order, le)) == Some(x)
    ensures DecodeItems(JArr(EncodeItems(v, q, order, le))) == Some(q)
  {
    var r := EncodeItems(v, q, order, le);
    forall i | 0 <= i < |q| ensures Decode(r[i]) == Some(q[i]) {
      assert q[i] in q;
    }
    assert DecodeItems(JArr(r)).value == q;
  }

  ghost predicate IsEncodingOf(j: Json, s: set<Value>) {
    Decode(j).Some? && Decode(j).value in s
  }

  lemma ItemsDecode(r: seq<Json>, s: set<Value>)
    requires forall x :: x in s ==> Hashable(x)
    requires forall j :: j in r ==> IsEncodingOf(j, s)
    requires forall x :: x in s ==> exists j :: j in r && Decode(j) == Some(x)
    ensures Decode(JObj(map["$frozenset" := JArr(r)])) == Some(FrozenSet(s))
  {
    forall i | 0 <= i < |r| ensures IsEncodingOf(r[i], s) {
      assert r[i] in r;
    }
    var q := DecodeItems(JArr(r)).value;
    forall x | x in s ensures x in q {
      var j :| j in r && Decode(j) == Some(x);
      var i :| 0 <= i < |r| && r[i] == j;
      assert q[i] == x;
    }
    assert (set x | x in q) == s;
  }

  /** Every encoded member decodes to a member of `s`, and every member of `s` is among them. */
  lemma MembersDecode(s: set<Value>, keys: seq<Value>, order: IterationOrder, le: (Json, Json) -> bool, r: seq<Json>)
    requires Enumerates(order) && Lists(keys, s) && forall i :: 0 <= i < |keys| ==> keys[i] < FrozenSet(s)
    requires forall x :: x in s ==> Decode(Encode(x, order, le)) == Some(x)
    requires forall j :: j in r <==> j in EncodeItems(FrozenSet(s), keys, order, le)
    ensures forall j :: j in r ==> IsEncodingOf(j, s)
    ensures forall x :: x in s ==> exists j :: j in r && Decode(j) == Some(x)
  {
    hide Encode, Decode;
    var all := EncodeItems(FrozenSet(s), keys, order, le);
    forall j | j in r ensures IsEncodingOf(j, s) {
      var k :| 0 <= k < |all| && all[k] == j;
      assert keys[k] in keys;
    }
    forall x | x in s ensures exists j :: j in r && Decode(j) == Some(x) {
      assert x in keys;
      var k :| 0 <= k < |all| && keys[k] == x;
      assert all[k] in r;
    }
  }

  lemma DecodeEncodeFrozen(s: set<Value>, order: IterationOrder, le: (Json, Json) -> bool)
    requires Enumerates(order) && forall x :: x in s ==> Hashable(x)
    requires forall x :: x in s ==> Decode(Encode(x, order, le)) == Some(x)
    ensures Decode(Encode(FrozenSet(s), order, le)) == Some(FrozenSet(s))
  {
    hide Hashable, Decode, Sort;
    var keys := order(s);
    assert Lists(keys, s);
    assert forall i :: 0 <= i < |keys| ==> keys[i] in keys && keys[i] in s;
    var r := EncodeItems(FrozenSet(s), keys, order, le);
    SortMembers(r, le);
    MembersDecode(s, keys, order, le, Sort(r, le));
    ItemsDecode(Sort(r, le), s);
  }

  /** Every encoded entry decodes to an entry of `m`, and every entry of `m` is among them. */
  lemma EntriesDecode(m: map<Value, Value>, keys: seq<Value>, order: IterationOrder, le: (Json, Json) -> bool,
      r: seq<(Json, Json)>)
    requires Enumerates(order) && Lists(keys, m.Keys)
    requires forall k :: k in m ==>
             Decode(Encode(k, order, le)) == Some(k) && Decode(Encode(m[k], order, le)) == Some(m[k])
    requires forall e :: e in r <==> e in EncodeEntries(Dict(m), keys, order, le)
    ensures forall e :: e in r ==> DecodesToEntry(JArr([e.0, e.1]), m)
    ensures forall k :: k in m ==> exists e :: e in r && DecodesTo(JArr([e.0, e.1]), k)
  {
    hide Encode, Decode, DecodeItems, DecodesToEntry, DecodesTo;
    var all := EncodeEntries(Dict(m), keys, order, le);
    forall e | e in r ensures DecodesToEntry(JArr([e.0, e.1]), m) {
      var i :| 0 <= i < |all| && all[i] == e;
      assert keys[i] in m;
      EntryDecodes(e.0, e.1, keys[i], m);
    }
    forall k | k in m ensures exists e :: e in r && DecodesTo(JArr([e.0, e.1]), k) {
      assert k in keys;
      var i :| 0 <= i < |keys| && keys[i] == k;
      assert all[i] in r;
      EntryDecodes(all[i].0, all[i].1, k, m);
    }
  }

  ghost predicate DecodesTo(j: Json, k: Value) {
    var r := DecodeItems(j);
    r.Some? && |r.value| == 2 && r.value[0] == k
  }

  lemma DictDecodes(j: Json, m: map<Value, Value>)
    requires DecodePairs(j).Some? && BuildDict(DecodePairs(j).value) == m
    requires forall p :: p in DecodePairs(j).value ==> Hashable(p.0)
    ensures Decode(JObj(map["$dict" := j])) == Some(Dict(m))
  {
    hide Hashable, BuildDict, DecodePairs;
  }

  lemma PairsComeFrom(r: seq<(Json, Json)>, m: map<Value, Value>)
    requires forall e :: e in r ==> DecodesToEntry(JArr([e.0, e.1]), m)
    ensures var q := DecodePairs(JArr(Pairs(r)));
            && q.Some? && |q.value| == |r|
            && forall i :: 0 <= i < |r| ==>
                 && q.value[i].0 in m && m[q.value[i].0] == q.value[i].1
                 && (forall k :: DecodesTo(JArr([r[i].0, r[i].1]), k) ==> q.value[i].0 == k)
  {
    hide DecodeItems;
    var js := Pairs(r);
    forall i | 0 <= i < |js| ensures DecodesToEntry(js[i], m) {
      assert r[i] in r;
    }
  }

  lemma PairsDecode(r: seq<(Json, Json)>, m: map<Value, Value>)
    requires forall k :: k in m ==> Hashable(k)
    requires forall e :: e in r ==> DecodesToEntry(JArr([e.0, e.1]), m)
    requires forall k :: k in m ==> exists e :: e in r && DecodesTo(JArr([e.0, e.1]), k)
    ensures Decode(JObj(map["$dict" := JArr(Pairs(r))])) == Some(Dict(m))
  {
    hide Hashable, DecodePairs, DecodeItems, Decode, DecodesToEntry, DecodesTo, Pairs;
    PairsComeFrom(r, m);
    var q := DecodePairs(JArr(Pairs(r))).value;
    forall p | p in q ensures p.0 in m && m[p.0] == p.1 {
      var i :| 0 <= i < |q| && q[i] == p;
    }
    BuildDictOf(q, m);
    forall k | k in m ensures k in BuildDict(q) {
      var e :| e in r && DecodesTo(JArr([e.0, e.1]), k);
      var i :| 0 <= i < |r| && r[i] == e;
      assert q[i] in q && q[i].0 == k;
    }
    assert BuildDict(q) == m;
    DictDecodes(JArr(Pairs(r)), m);
  }

  lemma DecodeEncodeDict(m: map<Value, Value>, order: IterationOrder, le: (Json, Json) -> bool)
    requires Enumerates(order) && forall k :: k in m ==> Hashable(k)
    requires forall k :: k in m ==>
             Decode(Encode(k, order, le)) == Some(k) && Decode(Encode(m[k], order, le)) == Some(m[k])
    ensures Decode(Encode(Dict(m), order, le)) == Some(Dict(m))
  {
    hide Hashable, Decode, DecodePairs, Sort, DecodesToEntry, DecodesTo;
    var keys := order(m.Keys);
    assert Lists(keys, m.Keys);
    var r := EncodeEntries(Dict(m), keys, order, le);
    forall e ensures e in Sort(r, ByKey(le)) <==> e in r {
      SortKeeps(r, ByKey(le), e);
    }
    EntriesDecode(m, keys, order, le, Sort(r, ByKey(le)));
    PairsDecode(Sort(r, ByKey(le)), m);
  }

  ghost predicate DecodesToEntry(j: Json, m: map<Value, Value>) {
    var r := DecodeItems(j);
    r.Some? && |r.value| == 2 && r.value[0] in m && m[r.value[0]] == r.value[1]
  }

  lemma EntryDecodes(jk: Json, jv: Json, k: Value, m: map<Value, Value>)
    requires k in m && Decode(jk) == Some(k) && Decode(jv) == Some(m[k])
    ensures DecodesToEntry(JArr([jk, jv]), m) && DecodesTo(JArr([jk, jv]), k)
    ensures DecodeItems(JArr([jk, jv])).value == [k, m[k]]
  {
    hide Decode;
    var q := [jk, jv];
    assert q[0] == jk && q[1] == jv;
    assert DecodeItems(JArr(q)).value == [k, m[k]];
  }

  lemma DecodeEncodeData(cls: Class, f: map<string, Value>, order: IterationOrder, le: (Json, Json) -> bool)
    requires Enumerates(order) && f.Keys == FieldNames(cls) && ConstructorAccepts(cls, f)
    requires forall n :: n in f ==> Decode(Encode(f[n], order, le)) == Some(f[n])
    ensures Decode(Encode(Data(cls, f), order, le)) == Some(Data(cls, f))
  {
    hide ConstructorAccepts, FieldNames, ClassName;
    var encoded := Encode(Data(cls, f), order, le).members["fields"].members;
    forall n ensures (n in encoded <==> n in f) && (n in f ==> encoded[n] == Encode(f[n], order, le)) {
    }
    FieldsDecode(cls, encoded, f);
  }

  lemma ConstructAll(cls: Class, f: map<string, Value>)
    requires f.Keys == FieldNames(cls) && ConstructorAccepts(cls, f)
    ensures Construct(cls, f) == Some(Data(cls, f))
  {
    DefaultsAreFields(cls);
    hide ConstructorAccepts, FieldNames, RequiredFields, Defaults;
    assert Defaults(cls) + f == f;
  }

  lemma FieldsDecode(cls: Class, encoded: map<string, Json>, f: map<string, Value>)
    requires f.Keys == FieldNames(cls) && ConstructorAccepts(cls, f)
    requires encoded.Keys == f.Keys && forall n :: n in f ==> Decode(encoded[n]) == Some(f[n])
    ensures Decode(JObj(map["$type" := JText(ClassName(cls)), "fields" := JObj(encoded)])) == Some(Data(cls, f))
  {
    hide ConstructorAccepts, ClassNamed, ClassName, FieldNames, Construct;
    ClassNameTells(cls);
    ConstructAll(cls, f);
    var decoded := map n | n in encoded :: Decode(encoded[n]).value;
    assert decoded == f;
  }

  /** Round trip: decoding undoes encoding, for every value a core can hold and every iteration order. */
  lemma {:induction false} DecodeEncode(v: Value, order: IterationOrder, le: (Json, Json) -> bool)
    requires Enumerates(order) && Storable(v)
    ensures Decode(Encode(v, order, le)) == Some(v)
  {
    hide ClassNamed, TypeNamed;
    match v
    case Member(t, n) => TypeNameTells(t);
    case FrozenSet(s) =>
      forall x | x in s ensures Decode(Encode(x, order, le)) == Some(x) { DecodeEncode(x, order, le); }
      DecodeEncodeFrozen(s, order, le);
    case Tuple(q) =>
      forall x | x in q ensures Decode(Encode(x, order, le)) == Some(x) { DecodeEncode(x, order, le); }
      DecodeEncodeItems(v, q, order, le);
    case List(q) =>
      forall x | x in q ensures Decode(Encode(x, order, le)) == Some(x) { DecodeEncode(x, order, le); }
      DecodeEncodeItems(v, q, order, le);
    case Dict(m) =>
      forall k | k in m
        ensures Decode(Encode(k, order, le)) == Some(k) && Decode(Encode(m[k], order, le)) == Some(m[k])
      {
        DecodeEncode(k, order, le);
        DecodeEncode(m[k], order, le);
      }
      DecodeEncodeDict(m, order, le);
    case Data(cls, f) =>
      forall n | n in f ensures Decode(Encode(f[n], order, le)) == Some(f[n]) { DecodeEncode(f[n], order, le); }
      DecodeEncodeData(cls, f, order, le);
    case _ =>
  }

  lemma EncodeInjective(v: Value, w: Value, order: IterationOrder, le: (Json, Json) -> bool)
    requires Enumerates(order) && Storable(v) && Storable(w) && Encode(v, order, le) == Encode(w, order, le)
    ensures v == w
  {
    DecodeEncode(v, order, le);
    DecodeEncode(w, order, le);
  }

  // ---------- the iteration order does not show ----------

  lemma ItemsForgetOrder(s: set<Value>, o1: IterationOrder, o2: IterationOrder, le: (Json, Json) -> bool)
    requires Enumerates(o1) && Enumerates(o2) && Canonical(le)
    requires forall x :: x in s ==> Encode(x, o1, le) == Encode(x, o2, le)
    ensures Encode(FrozenSet(s), o1, le) == Encode(FrozenSet(s), o2, le)
  {
    hide Sort, Total;
    var v := FrozenSet(s);
    assert Lists(o1(s), s) && Lists(o2(s), s);
    assert forall i :: 0 <= i < |o1(s)| ==> o1(s)[i] in o1(s) && o1(s)[i] in s;
    assert forall i :: 0 <= i < |o2(s)| ==> o2(s)[i] in o2(s) && o2(s)[i] in s;
    var p, q := EncodeItems(v, o1(s), o1, le), EncodeItems(v, o2(s), o2, le);
    ListsCounts(o1(s), s);
    ListsCounts(o2(s), s);
    MapPermutes(o1(s), o2(s), p, q);
    SortForgetsOrder(p, q, le);
  }

  /** The encoded keys of distinct keys are distinct, so equal sort keys mean equal entries. */
  lemma EntriesDistinct(m: map<Value, Value>, keys: seq<Value>, order: IterationOrder, le: (Json, Json) -> bool,
                        x: (Json, Json), y: (Json, Json))
    requires Enumerates(order) && Lists(keys, m.Keys) && forall k :: k in m ==> Storable(k)
    requires var r := EncodeEntries(Dict(m), keys, order, le); x in r && y in r && x.0 == y.0
    ensures x == y
  {
    var r := EncodeEntries(Dict(m), keys, order, le);
    var i :| 0 <= i < |r| && r[i] == x;
    var j :| 0 <= j < |r| && r[j] == y;
    assert keys[i] in keys && keys[j] in keys;
    EncodeInjective(keys[i], keys[j], order, le);
  }

  lemma CanonicalMeans(le: (Json, Json) -> bool)
    requires Canonical(le)
    ensures Total(le) && forall x, y :: le(x, y) && le(y, x) ==> x == y
  {
  }

  /** Two iteration orders of one dictionary encode the same entries, in another order. */
  lemma SameEntries(m: map<Value, Value>, keys1: seq<Value>, keys2: seq<Value>, o1: IterationOrder,
      o2: IterationOrder, le: (Json, Json) -> bool)
    requires Enumerates(o1) && Enumerates(o2) && Lists(keys1, m.Keys) && Lists(keys2, m.Keys)
    requires forall k :: k in m ==>
             Encode(k, o1, le) == Encode(k, o2, le) && Encode(m[k], o1, le) == Encode(m[k], o2, le)
    requires (forall i :: 0 <= i < |keys1| ==> keys1[i] in m) && (forall i :: 0 <= i < |keys2| ==> keys2[i] in m)
    ensures multiset(EncodeEntries(Dict(m), keys1, o1, le)) == multiset(EncodeEntries(Dict(m), keys2, o2, le))
  {
    hide Encode;
    var p, q := EncodeEntries(Dict(m), keys1, o1, le), EncodeEntries(Dict(m), keys2, o2, le);
    ListsCounts(keys1, m.Keys);
    ListsCounts(keys2, m.Keys);
    hide Lists;
    MapPermutes(keys1, keys2, p, q);
  }

  lemma SortedEntriesAgree(m: map<Value, Value>, o1: IterationOrder, o2: IterationOrder, le: (Json, Json) -> bool)
    requires Enumerates(o1) && Enumerates(o2) && Canonical(le) && forall k :: k in m ==> Storable(k)
    requires forall k :: k in m ==>
             Encode(k, o1, le) == Encode(k, o2, le) && Encode(m[k], o1, le) == Encode(m[k], o2, le)
    requires (forall k :: k in o1(m.Keys) ==> k in m) && (forall k :: k in o2(m.Keys) ==> k in m)
    ensures Sort(EncodeEntries(Dict(m), o1(m.Keys), o1, le), ByKey(le)) ==
            Sort(EncodeEntries(Dict(m), o2(m.Keys), o2, le), ByKey(le))
  {
    hide Sort, Storable, Canonical, Encode;
    var v, keys1, keys2 := Dict(m), o1(m.Keys), o2(m.Keys);
    assert Lists(keys1, m.Keys) && Lists(keys2, m.Keys);
    var p, q := EncodeEntries(v, keys1, o1, le), EncodeEntries(v, keys2, o2, le);
    SameEntries(m, keys1, keys2, o1, o2, le);
    CanonicalMeans(le);
    forall x, y | x in p && y in p && ByKey(le)(x, y) && ByKey(le)(y, x) ensures x == y {
      EntriesDistinct(m, keys1, o1, le, x, y);
    }
    ByKeyTotal(le);
    SortForgetsOrder(p, q, ByKey(le));
  }

  lemma EntriesForgetOrder(m: map<Value, Value>, o1: IterationOrder, o2: IterationOrder, le: (Json, Json) -> bool)
    requires Enumerates(o1) && Enumerates(o2) && Canonical(le) && forall k :: k in m ==> Storable(k)
    requires forall k :: k in m ==>
             Encode(k, o1, le) == Encode(k, o2, le) && Encode(m[k], o1, le) == Encode(m[k], o2, le)
    ensures Encode(Dict(m), o1, le) == Encode(Dict(m), o2, le)
  {
    hide Encode, Sort, Storable, Canonical;
    EncodeDict(m, o1, le);
    EncodeDict(m, o2, le);
    SortedEntriesAgree(m, o1, o2, le);
  }

  lemma EncodeDict(m: map<Value, Value>, order: IterationOrder, le: (Json, Json) -> bool)
    requires Enumerates(order)
    ensures forall k :: k in order(m.Keys) ==> k in m
    ensures Encode(Dict(m), order, le) ==
            JObj(map["$dict" := JArr(Pairs(Sort(EncodeEntries(Dict(m), order(m.Keys), order, le), ByKey(le))))])
  {
    assert Lists(order(m.Keys), m.Keys);
    hide Sort, Storable, Canonical;
  }

  lemma ByKeyTotal(le: (Json, Json) -> bool)
    requires Total(le)
    ensures Total(ByKey(le))
  {
    var key := ByKey(le);
    forall x, y ensures key(x, y) || key(y, x) {
      assert le(x.0, y.0) || le(y.0, x.0);
    }
    forall x, y, z | key(x, y) && key(y, z) ensures key(x, z) {
      assert le(x.0, y.0) && le(y.0, z.0);
    }
  }

  lemma PartsForgetOrder(v: Value, q: seq<Value>, o1: IterationOrder, o2: IterationOrder, le: (Json, Json) -> bool)
    requires v == Tuple(q) || v == List(q)
    requires Enumerates(o1) && Enumerates(o2)
    requires forall x :: x in q ==> Encode(x, o1, le) == Encode(x, o2, le)
    ensures Encode(v, o1, le) == Encode(v, o2, le)
  {
    assert forall i :: 0 <= i < |q| ==> q[i] in q;
    assert EncodeItems(v, q, o1, le) == EncodeItems(v, q, o2, le);
  }

  lemma FieldsForgetOrder(cls: Class, f: map<string, Value>, o1: IterationOrder, o2: IterationOrder,
      le: (Json, Json) -> bool)
    requires Enumerates(o1) && Enumerates(o2)
    requires forall n :: n in f ==> Encode(f[n], o1, le) == Encode(f[n], o2, le)
    ensures Encode(Data(cls, f), o1, le) == Encode(Data(cls, f), o2, le)
  {
    var j1, j2 := Encode(Data(cls, f), o1, le).members, Encode(Data(cls, f), o2, le).members;
    assert j1["fields"].members == j2["fields"].members;
    assert j1 == j2;
  }

  /** The encoding is canonical: it does not depend on the iteration order of any set or dictionary. */
  lemma {:induction false} EncodeForgetsOrder(v: Value, o1: IterationOrder, o2: IterationOrder,
      le: (Json, Json) -> bool)
    requires Enumerates(o1) && Enumerates(o2) && Canonical(le) && Storable(v)
    ensures Encode(v, o1, le) == Encode(v, o2, le)
  {
    match v
    case FrozenSet(s) =>
      forall x | x in s ensures Encode(x, o1, le) == Encode(x, o2, le) { EncodeForgetsOrder(x, o1, o2, le); }
      ItemsForgetOrder(s, o1, o2, le);
    case Tuple(q) =>
      forall x | x in q ensures Encode(x, o1, le) == Encode(x, o2, le) { EncodeForgetsOrder(x, o1, o2, le); }
      PartsForgetOrder(v, q, o1, o2, le);
    case List(q) =>
      forall x | x in q ensures Encode(x, o1, le) == Encode(x, o2, le) { EncodeForgetsOrder(x, o1, o2, le); }
      PartsForgetOrder(v, q, o1, o2, le);
    case Dict(m) =>
      forall k | k in m ensures Encode(k, o1, le) == Encode(k, o2, le) && Encode(m[k], o1, le) == Encode(m[k], o2, le) {
        EncodeForgetsOrder(k, o1, o2, le);
        EncodeForgetsOrder(m[k], o1, o2, le);
      }
      EntriesForgetOrder(m, o1, o2, le);
    case Data(cls, f) =>
      forall n | n in f ensures Encode(f[n], o1, le) == Encode(f[n], o2, le) { EncodeForgetsOrder(f[n], o1, o2, le); }
      FieldsForgetOrder(cls, f, o1, o2, le);
    case _ =>
  }
}
