/** Serialized semantic operations: building one, its record, and reading the record back. */
module OperationRecords {
  import opened Entities
  import opened Sorting
  import C = Codec

  type Value = C.Value

  const OPERATION_SCHEMA := "cadi.semantic-operation.v1"

  predicate AllowedAction(action: string) {
    action in {
      "create_program", "set_program_status", "create_session", "create_continuation", "set_continuation_lifecycle",
      "resume_after_wait", "create_request", "start_attempt", "set_attempt_execution", "complete_attempt",
      "create_phase", "set_phase_status", "complete_phase", "create_output", "finalize_request", "create_state",
      "set_state_validity", "add_replica", "set_replica_status", "propose_binding", "activate_initial_binding",
      "begin_migration", "commit_migration", "record_evidence", "record_event"}
  }

  predicate TimeSensitive(action: string) {
    action == "finalize_request" || action == "commit_migration"
  }

  datatype SemanticOperation = SemanticOperation(id: Id, action: string, arguments: seq<(string, Value)>)

  type Kwargs = map<string, Value>

  /** Whether the call binds to the method's signature and every argument matches its annotation. */
  type Binder = (string, Kwargs) -> bool

  /** Annotated arguments are values the codec stores. */
  ghost predicate Typed(binds: Binder) {
    forall action, kwargs: Kwargs, n :: binds(action, kwargs) && n in kwargs ==> C.Storable(kwargs[n])
  }

  predicate ExplicitTime(action: string, kwargs: Kwargs) {
    TimeSensitive(action) ==> "now" in kwargs && kwargs["now"] != C.Null
  }

  function ItemsInOrder(kwargs: Kwargs, names: seq<string>): (r: seq<(string, Value)>)
    requires forall i :: 0 <= i < |names| ==> names[i] in kwargs
    ensures |r| == |names| && forall i :: 0 <= i < |names| ==> r[i] == (names[i], kwargs[names[i]])
  {
    seq(|names|, i requires 0 <= i < |names| => (names[i], kwargs[names[i]]))
  }

  lemma NamesResolve(kwargs: Kwargs, h: Host)
    requires Regular(h)
    ensures forall i :: 0 <= i < |SortedNames(kwargs.Keys, h)| ==> SortedNames(kwargs.Keys, h)[i] in kwargs
  {
    var r := SortedNames(kwargs.Keys, h);
    assert forall i :: 0 <= i < |r| ==> r[i] in r;
  }

  /** `tuple(sorted(arguments.items()))`: the names are distinct, so they alone decide the order. */
  function SortedItems(kwargs: Kwargs, h: Host): seq<(string, Value)>
    requires Regular(h)
  {
    NamesResolve(kwargs, h);
    ItemsInOrder(kwargs, SortedNames(kwargs.Keys, h))
  }

  /** `dict(arguments)`; a later pair replaces an earlier one of the same name. */
  function KwargsOf(arguments: seq<(string, Value)>): Kwargs {
    if arguments == [] then map[]
    else var last := arguments[|arguments| - 1]; KwargsOf(arguments[..|arguments| - 1])[last.0 := last.1]
  }

  lemma {:induction false} KwargsOfItems(kwargs: Kwargs, names: seq<string>)
    requires forall i :: 0 <= i < |names| ==> names[i] in kwargs
    ensures var m := KwargsOf(ItemsInOrder(kwargs, names));
            (forall n :: n in m <==> n in names) && forall n :: n in m ==> n in kwargs && m[n] == kwargs[n]
  {
    if names != [] {
      var items, rest := ItemsInOrder(kwargs, names), names[..|names| - 1];
      assert items[..|items| - 1] == ItemsInOrder(kwargs, rest);
      assert names == rest + [names[|names| - 1]];
      KwargsOfItems(kwargs, rest);
    }
  }

  lemma KwargsOfSortedItems(kwargs: Kwargs, h: Host)
    requires Regular(h)
    ensures KwargsOf(SortedItems(kwargs, h)) == kwargs
    ensures |SortedItems(kwargs, h)| == |kwargs|
  {
    NamesResolve(kwargs, h);
    var names := SortedNames(kwargs.Keys, h);
    KwargsOfItems(kwargs, names);
    ListsCounts(names, kwargs.Keys);
    assert |multiset(names)| == |multiset(kwargs.Keys)|;
  }

  /** The build-time checks, then the arguments in canonical order. */
  function Build(id: Id, action: string, kwargs: Kwargs, binds: Binder, h: Host): Result<SemanticOperation>
    requires Regular(h)
  {
    if id == "" || !ExplicitTime(action, kwargs) || !AllowedAction(action) || !binds(action, kwargs)
    then Err(ValueError)
    else Ok(SemanticOperation(id, action, SortedItems(kwargs, h)))
  }

  /** The checks made again before an operation is serialized or dispatched. */
  function Validated(o: SemanticOperation, binds: Binder): Result<Kwargs> {
    var kwargs := KwargsOf(o.arguments);
    if o.id == "" || !AllowedAction(o.action) || |kwargs| != |o.arguments| || !ExplicitTime(o.action, kwargs) ||
        !binds(o.action, kwargs)
    then Err(ValueError) else Ok(kwargs)
  }

  function KwargsValue(kwargs: Kwargs): Value {
    C.Dict(map n | n in kwargs :: C.Text(n) := kwargs[n])
  }

  ghost function OperationToRecord(o: SemanticOperation, binds: Binder, order: C.IterationOrder,
      le: (C.Json, C.Json) -> bool): Result<C.Json>
    requires C.Enumerates(order)
  {
    var kwargs := Validated(o, binds);
    if kwargs.Err? then Err(kwargs.error)
    else Ok(C.JObj(map["schema" := C.JText(OPERATION_SCHEMA), "operation_id" := C.JText(o.id),
                       "action" := C.JText(o.action),
                       "arguments" := C.Encode(KwargsValue(kwargs.value), order, le)]))
  }

  /** A string-keyed mapping; a record without arguments stands for none. */
  function DecodeArguments(record: map<string, C.Json>): Option<Kwargs> {
    var v := if "arguments" in record then C.Decode(record["arguments"]) else Some(C.Dict(map[]));
    if v.Some? && v.value.Dict? && forall k :: k in v.value.entries ==> k.Text?
    then Some(map k | k in v.value.entries :: k.s := v.value.entries[k])
    else None
  }

  function OperationFromRecord(record: C.Json, binds: Binder, h: Host): Result<SemanticOperation>
    requires Regular(h)
  {
    if !record.JObj? then Err(ValueError) else
      var m := record.members;
      if "schema" !in m || m["schema"] != C.JText(OPERATION_SCHEMA) then Err(ValueError)
      else if "operation_id" !in m || !m["operation_id"].JText? || m["operation_id"].s == "" then Err(ValueError)
      else if "action" !in m || !m["action"].JText? || !AllowedAction(m["action"].s) then Err(ValueError)
      else
        var kwargs := DecodeArguments(m);
        if kwargs.None? then Err(ValueError) else Build(m["operation_id"].s, m["action"].s, kwargs.value, binds, h)
  }

  lemma DecodeArgumentsOf(kwargs: Kwargs, record: map<string, C.Json>)
    requires "arguments" in record && C.Decode(record["arguments"]) == Some(KwargsValue(kwargs))
    ensures DecodeArguments(record) == Some(kwargs)
  {
    var v := KwargsValue(kwargs);
    forall n | n in kwargs ensures C.Text(n) in v.entries && v.entries[C.Text(n)] == kwargs[n] {
    }
    assert DecodeArguments(record).value == kwargs;
  }

  /**
   The record round trip: whatever passes validation is read back as the same identifier, action and
   arguments, in canonical order.
   */
  lemma RecordRoundTrip(o: SemanticOperation, binds: Binder, h: Host, order: C.IterationOrder,
      le: (C.Json, C.Json) -> bool)
    requires Regular(h) && C.Enumerates(order) && Typed(binds)
    ensures var record := OperationToRecord(o, binds, order, le);
            record.Ok? ==>
              OperationFromRecord(record.value, binds, h) == Ok(o.(arguments := SortedItems(KwargsOf(o.arguments), h)))
  {
    hide C.Encode, C.Decode;
    hide AllowedAction, ExplicitTime, SortedItems, DecodeArguments;
    var record := OperationToRecord(o, binds, order, le);
    if record.Ok? {
      var kwargs := KwargsOf(o.arguments);
      C.DecodeEncode(KwargsValue(kwargs), order, le);
      var m := record.value.members;
      assert m["arguments"] == C.Encode(KwargsValue(kwargs), order, le);
      DecodeArgumentsOf(kwargs, m);
      assert m["schema"] == C.JText(OPERATION_SCHEMA);
      assert m["operation_id"] == C.JText(o.id);
      assert m["action"] == C.JText(o.action);
    }
  }

  /** A built operation always serializes, and its record reads back as the very same operation. */
  lemma BuiltRoundTrip(id: Id, action: string, kwargs: Kwargs, binds: Binder, h: Host, order: C.IterationOrder,
      le: (C.Json, C.Json) -> bool)
    requires Regular(h) && C.Enumerates(order) && Typed(binds) && Build(id, action, kwargs, binds, h).Ok?
    ensures var o := Build(id, action, kwargs, binds, h).value;
            var record := OperationToRecord(o, binds, order, le);
            record.Ok? && OperationFromRecord(record.value, binds, h) == Ok(o)
  {
    var o := Build(id, action, kwargs, binds, h).value;
    KwargsOfSortedItems(kwargs, h);
    hide SortedItems, AllowedAction, OperationFromRecord, KwargsOf;
    RecordRoundTrip(o, binds, h, order, le);
  }

  /**
   An accepted record is one of this schema with a nonempty identifier, and the operation read from it passes the
   checks made again before it is dispatched or written.
   */
  lemma AcceptedRecordStands(record: C.Json, binds: Binder, h: Host)
    requires Regular(h) && OperationFromRecord(record, binds, h).Ok?
    ensures var o := OperationFromRecord(record, binds, h).value;
            && record.JObj? && o.id != ""
            && Maps(record.members, "schema", "cadi.semantic-operation.v1")
            && Maps(record.members, "operation_id", o.id) && Maps(record.members, "action", o.action)
            && DecodeArguments(record.members) == Some(KwargsOf(o.arguments))
            && Validated(o, binds) == Ok(KwargsOf(o.arguments)) && o.arguments == SortedItems(KwargsOf(o.arguments), h)
  {
    KwargsOfSortedItems(DecodeArguments(record.members).value, h);
    hide SortedItems, KwargsOf, DecodeArguments, AllowedAction, ExplicitTime;
  }

  predicate Maps(members: map<string, C.Json>, name: string, text: string) {
    name in members && members[name] == C.JText(text)
  }

  /** No record of a finalization or a migration commit is accepted without an explicit time. */
  lemma ReplayNeverReadsTheClock(record: C.Json, binds: Binder, h: Host)
    requires Regular(h) && OperationFromRecord(record, binds, h).Ok?
    ensures var o := OperationFromRecord(record, binds, h).value;
            TimeSensitive(o.action) ==> "now" in KwargsOf(o.arguments) && KwargsOf(o.arguments)["now"] != C.Null
  {
    var kwargs := DecodeArguments(record.members).value;
    KwargsOfSortedItems(kwargs, h);
  }

  // ---------- a whole log ----------

  ghost predicate Loads(records: seq<C.Json>, binds: Binder, h: Host)
    requires Regular(h)
  {
    && (forall i :: 0 <= i < |records| ==> OperationFromRecord(records[i], binds, h).Ok?)
    && forall i, j :: 0 <= i < j < |records| ==>
         OperationFromRecord(records[i], binds, h).value.id != OperationFromRecord(records[j], binds, h).value.id
  }

  /** Reads a whole log before anything is dispatched; one bad or repeated line refuses all of it. */
  method LoadOperations(records: seq<C.Json>, binds: Binder, h: Host) returns (r: Result<seq<SemanticOperation>>)
    requires Regular(h)
    ensures r.Ok? <==> Loads(records, binds, h)
    ensures r.Ok? ==> |r.value| == |records| && forall i :: 0 <= i < |records| ==>
            OperationFromRecord(records[i], binds, h) == Ok(r.value[i])
    ensures r.Err? ==> r.error == ValueError
  {
    hide OperationFromRecord;
    var result: seq<SemanticOperation> := [];
    var seen: set<Id> := {};
    for k := 0 to |records|
      invariant |result| == k && forall i :: 0 <= i < k ==> OperationFromRecord(records[i], binds, h) == Ok(result[i])
      invariant forall i, j :: 0 <= i < j < k ==> result[i].id != result[j].id
      invariant forall id :: id in seen <==> exists i :: 0 <= i < k && result[i].id == id
    {
      RejectionIsValueError(records[k], binds, h);
      var operation := OperationFromRecord(records[k], binds, h);
      if operation.Err? {
        return Err(operation.error);
      }
      if operation.value.id in seen {
        var i :| 0 <= i < k && result[i].id == operation.value.id;
        assert OperationFromRecord(records[i], binds, h).value.id == OperationFromRecord(records[k], binds, h).value.id;
        return Err(ValueError);
      }
      seen := seen + {operation.value.id};
      result := result + [operation.value];
    }
    return Ok(result);
  }

  lemma RejectionIsValueError(record: C.Json, binds: Binder, h: Host)
    requires Regular(h)
    ensures OperationFromRecord(record, binds, h).Err? ==> OperationFromRecord(record, binds, h).error == ValueError
  {
  }
}
