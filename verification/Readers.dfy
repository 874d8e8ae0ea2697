/**
 Reading decoded values back into typed entities, the shape a restored snapshot must have: each reader
 answers with an entity exactly when the value is the image of that entity.
 */
module Readers {
  import opened Entities
  import opened Images

  /** The reader answers with an entity exactly on that entity's image. */
  ghost predicate Inverts<T(!new)>(read: Value -> Option<T>, image: T -> Value) {
    forall v, x :: read(v) == Some(x) <==> v == image(x)
  }

  lemma InvertsInjective<T(!new)>(read: Value -> Option<T>, image: T -> Value, x: T, y: T)
    requires Inverts(read, image) && image(x) == image(y)
    ensures x == y
  {
    assert read(image(x)) == Some(x);
    assert read(image(y)) == Some(y);
  }

  // ---------- scalars and collections ----------

  function ReadText(v: Value): Option<string> { if v.Text? then Some(v.s) else None }

  function ReadInt(v: Value): Option<int> { if v.Int? then Some(v.i) else None }

  function ReadBool(v: Value): Option<bool> { if v.Bool? then Some(v.b) else None }

  function ReadFloat(v: Value): Option<real> { if v.Float? then Some(v.x) else None }

  function ReadOptionalText(v: Value): Option<Option<string>> {
    if v.Null? then Some(None) else if v.Text? then Some(Some(v.s)) else None
  }

  function ReadOptionalInt(v: Value): Option<Option<int>> {
    if v.Null? then Some(None) else if v.Int? then Some(Some(v.i)) else None
  }

  function ReadOptionalFloat(v: Value): Option<Option<real>> {
    if v.Null? then Some(None) else if v.Float? then Some(Some(v.x)) else None
  }

  function ReadIds(v: Value): Option<set<string>> {
    if v.FrozenSet? && (forall x :: x in v.items ==> x.Text?) then Some(set x | x in v.items :: x.s) else None
  }

  predicate IsLabel(v: Value) {
    v.Tuple? && |v.parts| == 2 && v.parts[0].Text? && v.parts[1].Text?
  }

  function ReadLabels(v: Value): Option<set<(string, string)>> {
    if v.FrozenSet? && (forall x :: x in v.items ==> IsLabel(x))
    then Some(set x | x in v.items :: (x.parts[0].s, x.parts[1].s)) else None
  }

  lemma OptionalTextReads(v: Value, o: Option<string>)
    ensures ReadOptionalText(v) == Some(o) <==> v == OptionalText(o)
  {
  }

  lemma OptionalIntReads(v: Value, o: Option<int>)
    ensures ReadOptionalInt(v) == Some(o) <==> v == OptionalInt(o)
  {
  }

  lemma OptionalFloatReads(v: Value, o: Option<real>)
    ensures ReadOptionalFloat(v) == Some(o) <==> v == OptionalFloat(o)
  {
  }

  lemma IdsRead(v: Value, s: set<string>)
    ensures ReadIds(v) == Some(s) <==> v == IdsValue(s)
  {
    if ReadIds(v) == Some(s) {
      forall x ensures x in v.items <==> x in IdsValue(s).items {
        if x in v.items {
          assert x == C.Text(x.s) && x.s in s;
        }
      }
    }
    if v == IdsValue(s) {
      var r := set x | x in v.items :: x.s;
      forall x ensures x in r <==> x in s {
        if x in s {
          assert C.Text(x) in v.items;
        }
      }
      assert r == s;
    }
  }

  lemma LabelsRead(v: Value, s: set<(string, string)>)
    ensures ReadLabels(v) == Some(s) <==> v == LabelsValue(s)
  {
    if ReadLabels(v) == Some(s) {
      forall x ensures x in v.items <==> x in LabelsValue(s).items {
        if x in v.items {
          assert IsLabel(x) && x == LabelImage((x.parts[0].s, x.parts[1].s));
          assert (x.parts[0].s, x.parts[1].s) in s;
        }
        if x in LabelsValue(s).items {
          var y :| y in s && x == LabelImage(y);
          var z :| z in v.items && y == (z.parts[0].s, z.parts[1].s);
          assert IsLabel(z) && z == LabelImage(y);
        }
      }
    }
    if v == LabelsValue(s) {
      forall x | x in v.items ensures IsLabel(x) && (x.parts[0].s, x.parts[1].s) in s {
        var y :| y in s && x == LabelImage(y);
      }
      forall y | y in s ensures y in ReadLabels(v).value {
        assert LabelImage(y) in v.items;
      }
      assert ReadLabels(v).value == s;
    }
  }

  function LabelImage(y: (string, string)): Value {
    C.Tuple([C.Text(y.0), C.Text(y.1)])
  }

  function ReadOriginType(v: Value): Option<OriginType> {
    if !v.Text? then None
    else if v.s == "continuation" then Some(FromContinuation)
    else if v.s == "request" then Some(FromRequest)
    else if v.s == "attempt" then Some(FromAttempt)
    else if v.s == "phase" then Some(FromPhase)
    else Some(UnsupportedOrigin(v.s))
  }

  lemma OriginTypeReads(v: Value, o: OriginType)
    ensures ReadOriginType(v) == Some(o) <==> v == OriginTypeValue(o)
  {
  }

  // ---------- enumerations ----------

  function ReadProgramStatus(v: Value): Option<ProgramStatus> {
    if v == ProgramStatusValue(ProgramCreated) then Some(ProgramCreated)
    else if v == ProgramStatusValue(ProgramRunning) then Some(ProgramRunning)
    else if v == ProgramStatusValue(ProgramCompleted) then Some(ProgramCompleted)
    else if v == ProgramStatusValue(ProgramFailed) then Some(ProgramFailed)
    else if v == ProgramStatusValue(ProgramCancelled) then Some(ProgramCancelled)
    else None
  }

  lemma ProgramStatusReads(v: Value, x: ProgramStatus)
    ensures ReadProgramStatus(v) == Some(x) <==> v == ProgramStatusValue(x)
  {
    ProgramStatussDiffer();
    hide ProgramStatusValue, C.Storable, C.Hashable;
  }

  lemma ProgramStatussDiffer()
    ensures forall x, y :: ProgramStatusValue(x) == ProgramStatusValue(y) ==> x == y
  {
    hide C.Storable, C.Hashable;
  }

  function ReadContinuationLifecycle(v: Value): Option<ContinuationLifecycle> {
    if v == ContinuationLifecycleValue(LifeCreated) then Some(LifeCreated)
    else if v == ContinuationLifecycleValue(LifeActive) then Some(LifeActive)
    else if v == ContinuationLifecycleValue(LifeWaiting) then Some(LifeWaiting)
    else if v == ContinuationLifecycleValue(LifeSpeculative) then Some(LifeSpeculative)
    else if v == ContinuationLifecycleValue(LifeJoining) then Some(LifeJoining)
    else if v == ContinuationLifecycleValue(LifeTerminal) then Some(LifeTerminal)
    else if v == ContinuationLifecycleValue(LifeAbandoned) then Some(LifeAbandoned)
    else None
  }

  lemma ContinuationLifecycleReads(v: Value, x: ContinuationLifecycle)
    ensures ReadContinuationLifecycle(v) == Some(x) <==> v == ContinuationLifecycleValue(x)
  {
    ContinuationLifecyclesDiffer();
    hide ContinuationLifecycleValue, C.Storable, C.Hashable;
  }

  lemma ContinuationLifecyclesDiffer()
    ensures forall x, y :: ContinuationLifecycleValue(x) == ContinuationLifecycleValue(y) ==> x == y
  {
    hide C.Storable, C.Hashable;
  }

  function ReadRequestStatus(v: Value): Option<RequestStatus> {
    if v == RequestStatusValue(RequestCreated) then Some(RequestCreated)
    else if v == RequestStatusValue(RequestReady) then Some(RequestReady)
    else if v == RequestStatusValue(RequestRunning) then Some(RequestRunning)
    else if v == RequestStatusValue(RequestCompleted) then Some(RequestCompleted)
    else if v == RequestStatusValue(RequestFailed) then Some(RequestFailed)
    else if v == RequestStatusValue(RequestCancelled) then Some(RequestCancelled)
    else None
  }

  lemma RequestStatusReads(v: Value, x: RequestStatus)
    ensures ReadRequestStatus(v) == Some(x) <==> v == RequestStatusValue(x)
  {
    RequestStatussDiffer();
    hide RequestStatusValue, C.Storable, C.Hashable;
  }

  lemma RequestStatussDiffer()
    ensures forall x, y :: RequestStatusValue(x) == RequestStatusValue(y) ==> x == y
  {
    hide C.Storable, C.Hashable;
  }

  function ReadExecutionStatus(v: Value): Option<ExecutionStatus> {
    if v == ExecutionStatusValue(ExecCreated) then Some(ExecCreated)
    else if v == ExecutionStatusValue(ExecDispatched) then Some(ExecDispatched)
    else if v == ExecutionStatusValue(ExecRunning) then Some(ExecRunning)
    else if v == ExecutionStatusValue(ExecSucceeded) then Some(ExecSucceeded)
    else if v == ExecutionStatusValue(ExecFailed) then Some(ExecFailed)
    else if v == ExecutionStatusValue(ExecCancelled) then Some(ExecCancelled)
    else None
  }

  lemma ExecutionStatusReads(v: Value, x: ExecutionStatus)
    ensures ReadExecutionStatus(v) == Some(x) <==> v == ExecutionStatusValue(x)
  {
    ExecutionStatussDiffer();
    hide ExecutionStatusValue, C.Storable, C.Hashable;
  }

  lemma ExecutionStatussDiffer()
    ensures forall x, y :: ExecutionStatusValue(x) == ExecutionStatusValue(y) ==> x == y
  {
    hide C.Storable, C.Hashable;
  }

  function ReadAttemptAuthority(v: Value): Option<AttemptAuthority> {
    if v == AttemptAuthorityValue(NoAuthority) then Some(NoAuthority)
    else if v == AttemptAuthorityValue(Current) then Some(Current)
    else if v == AttemptAuthorityValue(Committed) then Some(Committed)
    else if v == AttemptAuthorityValue(Superseded) then Some(Superseded)
    else None
  }

  lemma AttemptAuthorityReads(v: Value, x: AttemptAuthority)
    ensures ReadAttemptAuthority(v) == Some(x) <==> v == AttemptAuthorityValue(x)
  {
    AttemptAuthoritysDiffer();
    hide AttemptAuthorityValue, C.Storable, C.Hashable;
  }

  lemma AttemptAuthoritysDiffer()
    ensures forall x, y :: AttemptAuthorityValue(x) == AttemptAuthorityValue(y) ==> x == y
  {
    hide C.Storable, C.Hashable;
  }

  function ReadPhaseType(v: Value): Option<PhaseType> {
    if v == PhaseTypeValue(Prefill) then Some(Prefill)
    else if v == PhaseTypeValue(Decode) then Some(Decode)
    else if v == PhaseTypeValue(StatePull) then Some(StatePull)
    else if v == PhaseTypeValue(StateTransfer) then Some(StateTransfer)
    else if v == PhaseTypeValue(OtherPhase) then Some(OtherPhase)
    else None
  }

  lemma PhaseTypeReads(v: Value, x: PhaseType)
    ensures ReadPhaseType(v) == Some(x) <==> v == PhaseTypeValue(x)
  {
    PhaseTypesDiffer();
    hide PhaseTypeValue, C.Storable, C.Hashable;
  }

  lemma PhaseTypesDiffer()
    ensures forall x, y :: PhaseTypeValue(x) == PhaseTypeValue(y) ==> x == y
  {
    hide C.Storable, C.Hashable;
  }

  function ReadPhaseStatus(v: Value): Option<PhaseStatus> {
    if v == PhaseStatusValue(PhaseCreated) then Some(PhaseCreated)
    else if v == PhaseStatusValue(PhaseRunning) then Some(PhaseRunning)
    else if v == PhaseStatusValue(PhaseCompleted) then Some(PhaseCompleted)
    else if v == PhaseStatusValue(PhaseFailed) then Some(PhaseFailed)
    else if v == PhaseStatusValue(PhaseCancelled) then Some(PhaseCancelled)
    else None
  }

  lemma PhaseStatusReads(v: Value, x: PhaseStatus)
    ensures ReadPhaseStatus(v) == Some(x) <==> v == PhaseStatusValue(x)
  {
    PhaseStatussDiffer();
    hide PhaseStatusValue, C.Storable, C.Hashable;
  }

  lemma PhaseStatussDiffer()
    ensures forall x, y :: PhaseStatusValue(x) == PhaseStatusValue(y) ==> x == y
  {
    hide C.Storable, C.Hashable;
  }

  function ReadStateLifecycle(v: Value): Option<StateLifecycle> {
    if v == StateLifecycleValue(Active) then Some(Active)
    else if v == StateLifecycleValue(Waiting) then Some(Waiting)
    else if v == StateLifecycleValue(Speculative) then Some(Speculative)
    else if v == StateLifecycleValue(Terminal) then Some(Terminal)
    else None
  }

  lemma StateLifecycleReads(v: Value, x: StateLifecycle)
    ensures ReadStateLifecycle(v) == Some(x) <==> v == StateLifecycleValue(x)
  {
    StateLifecyclesDiffer();
    hide StateLifecycleValue, C.Storable, C.Hashable;
  }

  lemma StateLifecyclesDiffer()
    ensures forall x, y :: StateLifecycleValue(x) == StateLifecycleValue(y) ==> x == y
  {
    hide C.Storable, C.Hashable;
  }

  function ReadStateValidity(v: Value): Option<StateValidity> {
    if v == StateValidityValue(StateValid) then Some(StateValid)
    else if v == StateValidityValue(StateInvalid) then Some(StateInvalid)
    else None
  }

  lemma StateValidityReads(v: Value, x: StateValidity)
    ensures ReadStateValidity(v) == Some(x) <==> v == StateValidityValue(x)
  {
    StateValiditysDiffer();
    hide StateValidityValue, C.Storable, C.Hashable;
  }

  lemma StateValiditysDiffer()
    ensures forall x, y :: StateValidityValue(x) == StateValidityValue(y) ==> x == y
  {
    hide C.Storable, C.Hashable;
  }

  function ReadReplicaStatus(v: Value): Option<ReplicaStatus> {
    if v == ReplicaStatusValue(Materializing) then Some(Materializing)
    else if v == ReplicaStatusValue(ReplicaValid) then Some(ReplicaValid)
    else if v == ReplicaStatusValue(ReplicaStale) then Some(ReplicaStale)
    else if v == ReplicaStatusValue(Transferring) then Some(Transferring)
    else if v == ReplicaStatusValue(Evicting) then Some(Evicting)
    else if v == ReplicaStatusValue(ReplicaLost) then Some(ReplicaLost)
    else if v == ReplicaStatusValue(ReplicaInvalid) then Some(ReplicaInvalid)
    else None
  }

  lemma ReplicaStatusReads(v: Value, x: ReplicaStatus)
    ensures ReadReplicaStatus(v) == Some(x) <==> v == ReplicaStatusValue(x)
  {
    ReplicaStatussDiffer();
    hide ReplicaStatusValue, C.Storable, C.Hashable;
  }

  lemma ReplicaStatussDiffer()
    ensures forall x, y :: ReplicaStatusValue(x) == ReplicaStatusValue(y) ==> x == y
  {
    hide C.Storable, C.Hashable;
  }

  function ReadBindingStatus(v: Value): Option<BindingStatus> {
    if v == BindingStatusValue(Proposed) then Some(Proposed)
    else if v == BindingStatusValue(BindingActive) then Some(BindingActive)
    else if v == BindingStatusValue(Migrating) then Some(Migrating)
    else if v == BindingStatusValue(BindingSuperseded) then Some(BindingSuperseded)
    else if v == BindingStatusValue(Released) then Some(Released)
    else if v == BindingStatusValue(BindingInvalid) then Some(BindingInvalid)
    else None
  }

  lemma BindingStatusReads(v: Value, x: BindingStatus)
    ensures ReadBindingStatus(v) == Some(x) <==> v == BindingStatusValue(x)
  {
    BindingStatussDiffer();
    hide BindingStatusValue, C.Storable, C.Hashable;
  }

  lemma BindingStatussDiffer()
    ensures forall x, y :: BindingStatusValue(x) == BindingStatusValue(y) ==> x == y
  {
    hide C.Storable, C.Hashable;
  }

  function ReadEvidenceAuthority(v: Value): Option<EvidenceAuthority> {
    if v == EvidenceAuthorityValue(Estimated) then Some(Estimated)
    else if v == EvidenceAuthorityValue(Derived) then Some(Derived)
    else if v == EvidenceAuthorityValue(ExactObservation) then Some(ExactObservation)
    else if v == EvidenceAuthorityValue(Authoritative) then Some(Authoritative)
    else None
  }

  lemma EvidenceAuthorityReads(v: Value, x: EvidenceAuthority)
    ensures ReadEvidenceAuthority(v) == Some(x) <==> v == EvidenceAuthorityValue(x)
  {
    EvidenceAuthoritysDiffer();
    hide EvidenceAuthorityValue, C.Storable, C.Hashable;
  }

  lemma EvidenceAuthoritysDiffer()
    ensures forall x, y :: EvidenceAuthorityValue(x) == EvidenceAuthorityValue(y) ==> x == y
  {
    hide C.Storable, C.Hashable;
  }

  function ReadEvidenceStatus(v: Value): Option<EvidenceStatus> {
    if v == EvidenceStatusValue(EvidenceValid) then Some(EvidenceValid)
    else if v == EvidenceStatusValue(EvidenceStale) then Some(EvidenceStale)
    else if v == EvidenceStatusValue(EvidenceUnknown) then Some(EvidenceUnknown)
    else if v == EvidenceStatusValue(EvidenceFailed) then Some(EvidenceFailed)
    else if v == EvidenceStatusValue(Ambiguous) then Some(Ambiguous)
    else None
  }

  lemma EvidenceStatusReads(v: Value, x: EvidenceStatus)
    ensures ReadEvidenceStatus(v) == Some(x) <==> v == EvidenceStatusValue(x)
  {
    EvidenceStatussDiffer();
    hide EvidenceStatusValue, C.Storable, C.Hashable;
  }

  lemma EvidenceStatussDiffer()
    ensures forall x, y :: EvidenceStatusValue(x) == EvidenceStatusValue(y) ==> x == y
  {
    hide C.Storable, C.Hashable;
  }

  // ---------- records ----------

  /** The values of a record of class `c`, in the order the class declares its fields. */
  function Columns(v: Value, c: C.Class): (r: Option<seq<Value>>)
    ensures r.Some? ==> |r.value| == |C.Names(c)|
  {
    if v.Data? && v.cls == c && v.fields.Keys == C.FieldNames(c)
    then Some(seq(|C.Names(c)|, i requires 0 <= i < |C.Names(c)| => v.fields[C.Names(c)[i]])) else None
  }

  lemma ColumnsMean(v: Value, c: C.Class, values: seq<Value>)
    requires |values| == |C.Names(c)|
    ensures Columns(v, c) == Some(values) <==> v == Record(c, values)
  {
    hide C.Names;
    var names := C.Names(c);
    forall i | 0 <= i < |names| ensures Record(c, values).fields[names[i]] == values[i] {
      forall j | i < j < |names| ensures names[j] != names[i] {
        NamesDiffer(c, i, j);
      }
      C.FieldAt(names, values, i);
    }
    if Columns(v, c) == Some(values) {
      forall n | n in v.fields ensures v.fields[n] == Record(c, values).fields[n] {
        var i :| 0 <= i < |names| && names[i] == n;
        assert Columns(v, c).value[i] == values[i];
      }
      assert v.fields == Record(c, values).fields;
    }
    if v == Record(c, values) {
      assert Columns(v, c).Some? && Columns(v, c).value == values;
    }
  }

  function ReadProgram(v: Value): Option<Program> {
    var q := Columns(v, C.ProgramClass);
    if q.None? then None else
      var id := ReadText(q.value[0]);
      var status := ReadProgramStatus(q.value[1]);
      if id.Some? && status.Some?
      then Some(Program(id.value, status.value)) else None
  }

  lemma ProgramReads()
    ensures Inverts(ReadProgram, ProgramValue)
  {
    hide ProgramStatusValue, ReadProgramStatus, C.Names, C.Storable, C.Hashable, Record, Columns;
    forall v, e: Program ensures ReadProgram(v) == Some(e) <==> v == ProgramValue(e) {
      ColumnsMean(v, C.ProgramClass, ProgramRow(e));
      var q := Columns(v, C.ProgramClass);
      var row := ProgramRow(e);
      if q.Some? {
        ProgramStatusReads(q.value[1], e.status);
        assert q.value == row <==> (q.value[0] == row[0] && q.value[1] == row[1]);
      }
    }
  }

  function ReadSession(v: Value): Option<Session> {
    var q := Columns(v, C.SessionClass);
    if q.None? then None else
      var id := ReadText(q.value[0]);
      var programId := ReadText(q.value[1]);
      if id.Some? && programId.Some?
      then Some(Session(id.value, programId.value)) else None
  }

  lemma SessionReads()
    ensures Inverts(ReadSession, SessionValue)
  {
    hide C.Names, C.Storable, C.Hashable, Record, Columns;
    forall v, e: Session ensures ReadSession(v) == Some(e) <==> v == SessionValue(e) {
      ColumnsMean(v, C.SessionClass, SessionRow(e));
      var q := Columns(v, C.SessionClass);
      var row := SessionRow(e);
      if q.Some? {
        assert q.value == row <==> (q.value[0] == row[0] && q.value[1] == row[1]);
      }
    }
  }

  function ReadContinuation(v: Value): Option<Continuation> {
    var q := Columns(v, C.ContinuationClass);
    if q.None? then None else
      var id := ReadText(q.value[0]);
      var sessionId := ReadText(q.value[1]);
      var parentIds := ReadIds(q.value[2]);
      var lifecycle := ReadContinuationLifecycle(q.value[3]);
      if id.Some? && sessionId.Some? && parentIds.Some? && lifecycle.Some?
      then Some(Continuation(id.value, sessionId.value, parentIds.value, lifecycle.value)) else None
  }

  lemma ContinuationReads()
    ensures Inverts(ReadContinuation, ContinuationValue)
  {
    hide ContinuationLifecycleValue, IdsValue, ReadContinuationLifecycle, ReadIds, C.Names, C.Storable, C.Hashable,
        Record, Columns;
    forall v, e: Continuation ensures ReadContinuation(v) == Some(e) <==> v == ContinuationValue(e) {
      ColumnsMean(v, C.ContinuationClass, ContinuationRow(e));
      var q := Columns(v, C.ContinuationClass);
      var row := ContinuationRow(e);
      if q.Some? {
        IdsRead(q.value[2], e.parentIds);
        ContinuationLifecycleReads(q.value[3], e.lifecycle);
        assert q.value == row <==> (q.value[0] == row[0] && q.value[1] == row[1] && q.value[2] == row[2] &&
          q.value[3] == row[3]);
      }
    }
  }

  function ReadLogicalRequest(v: Value): Option<LogicalRequest> {
    var q := Columns(v, C.LogicalRequestClass);
    if q.None? then None else
      var id := ReadText(q.value[0]);
      var continuationId := ReadText(q.value[1]);
      var status := ReadRequestStatus(q.value[2]);
      var currentAttemptId := ReadOptionalText(q.value[3]);
      var committedAttemptId := ReadOptionalText(q.value[4]);
      var authoritativeOutputId := ReadOptionalText(q.value[5]);
      if id.Some? && continuationId.Some? && status.Some? && currentAttemptId.Some? && committedAttemptId.Some? 
        && authoritativeOutputId.Some?
      then Some(LogicalRequest(id.value, continuationId.value, status.value, currentAttemptId.value,
          committedAttemptId.value, authoritativeOutputId.value)) else None
  }

  lemma LogicalRequestReads()
    ensures Inverts(ReadLogicalRequest, LogicalRequestValue)
  {
    hide OptionalText, ReadOptionalText, ReadRequestStatus, RequestStatusValue, C.Names, C.Storable, C.Hashable,
        Record, Columns;
    forall v, e: LogicalRequest ensures ReadLogicalRequest(v) == Some(e) <==> v == LogicalRequestValue(e) {
      ColumnsMean(v, C.LogicalRequestClass, LogicalRequestRow(e));
      var q := Columns(v, C.LogicalRequestClass);
      var row := LogicalRequestRow(e);
      if q.Some? {
        RequestStatusReads(q.value[2], e.status);
        OptionalTextReads(q.value[3], e.currentAttemptId);
        OptionalTextReads(q.value[4], e.committedAttemptId);
        OptionalTextReads(q.value[5], e.authoritativeOutputId);
        assert q.value == row <==> (q.value[0] == row[0] && q.value[1] == row[1] && q.value[2] == row[2] &&
          q.value[3] == row[3] && q.value[4] == row[4] && q.value[5] == row[5]);
      }
    }
  }

  function ReadAttempt(v: Value): Option<Attempt> {
    var q := Columns(v, C.AttemptClass);
    if q.None? then None else
      var id := ReadText(q.value[0]);
      var requestId := ReadText(q.value[1]);
      var generation := ReadInt(q.value[2]);
      var executionStatus := ReadExecutionStatus(q.value[3]);
      var authorityStatus := ReadAttemptAuthority(q.value[4]);
      if id.Some? && requestId.Some? && generation.Some? && executionStatus.Some? && authorityStatus.Some?
      then Some(Attempt(id.value, requestId.value, generation.value, executionStatus.value,
          authorityStatus.value)) else None
  }

  lemma AttemptReads()
    ensures Inverts(ReadAttempt, AttemptValue)
  {
    hide AttemptAuthorityValue, ExecutionStatusValue, ReadAttemptAuthority, ReadExecutionStatus, C.Names, C.Storable,
        C.Hashable, Record, Columns;
    forall v, e: Attempt ensures ReadAttempt(v) == Some(e) <==> v == AttemptValue(e) {
      ColumnsMean(v, C.AttemptClass, AttemptRow(e));
      var q := Columns(v, C.AttemptClass);
      var row := AttemptRow(e);
      if q.Some? {
        ExecutionStatusReads(q.value[3], e.executionStatus);
        AttemptAuthorityReads(q.value[4], e.authorityStatus);
        assert q.value == row <==> (q.value[0] == row[0] && q.value[1] == row[1] && q.value[2] == row[2] &&
          q.value[3] == row[3] && q.value[4] == row[4]);
      }
    }
  }

  function ReadPhase(v: Value): Option<Phase> {
    var q := Columns(v, C.PhaseClass);
    if q.None? then None else
      var id := ReadText(q.value[0]);
      var attemptId := ReadText(q.value[1]);
      var ordinal := ReadInt(q.value[2]);
      var phaseType := ReadPhaseType(q.value[3]);
      var status := ReadPhaseStatus(q.value[4]);
      if id.Some? && attemptId.Some? && ordinal.Some? && phaseType.Some? && status.Some?
      then Some(Phase(id.value, attemptId.value, ordinal.value, phaseType.value, status.value)) else None
  }

  lemma PhaseReads()
    ensures Inverts(ReadPhase, PhaseValue)
  {
    hide PhaseStatusValue, PhaseTypeValue, ReadPhaseStatus, ReadPhaseType, C.Names, C.Storable, C.Hashable, Record,
        Columns;
    forall v, e: Phase ensures ReadPhase(v) == Some(e) <==> v == PhaseValue(e) {
      ColumnsMean(v, C.PhaseClass, PhaseRow(e));
      var q := Columns(v, C.PhaseClass);
      var row := PhaseRow(e);
      if q.Some? {
        PhaseTypeReads(q.value[3], e.phaseType);
        PhaseStatusReads(q.value[4], e.status);
        assert q.value == row <==> (q.value[0] == row[0] && q.value[1] == row[1] && q.value[2] == row[2] &&
          q.value[3] == row[3] && q.value[4] == row[4]);
      }
    }
  }

  function ReadReusableState(v: Value): Option<ReusableState> {
    var q := Columns(v, C.ReusableStateClass);
    if q.None? then None else
      var id := ReadText(q.value[0]);
      var originType := ReadOriginType(q.value[1]);
      var originId := ReadText(q.value[2]);
      var originContinuationId := ReadText(q.value[3]);
      var originRequestId := ReadOptionalText(q.value[4]);
      var producerAttemptId := ReadOptionalText(q.value[5]);
      var semanticType := ReadText(q.value[6]);
      var representation := ReadText(q.value[7]);
      var lifecycle := ReadStateLifecycle(q.value[8]);
      var validity := ReadStateValidity(q.value[9]);
      var derivedFrom := ReadIds(q.value[10]);
      var producerPhaseId := ReadOptionalText(q.value[11]);
      if id.Some? && originType.Some? && originId.Some? && originContinuationId.Some? && originRequestId.Some? 
        && producerAttemptId.Some? && semanticType.Some? && representation.Some? && lifecycle.Some? && validity.Some?
        && derivedFrom.Some? && producerPhaseId.Some?
      then Some(ReusableState(id.value, originType.value, originId.value, originContinuationId.value,
          originRequestId.value, producerAttemptId.value, semanticType.value, representation.value, lifecycle.value,
          validity.value, derivedFrom.value, producerPhaseId.value)) else None
  }

  lemma ReusableStateRowReads(q: seq<Value>, e: ReusableState)
    requires |q| == |ReusableStateRow(e)|
    ensures q == ReusableStateRow(e) <==>
            && ReadText(q[0]) == Some(e.id)
            && ReadOriginType(q[1]) == Some(e.originType)
            && ReadText(q[2]) == Some(e.originId)
            && ReadText(q[3]) == Some(e.originContinuationId)
            && ReadOptionalText(q[4]) == Some(e.originRequestId)
            && ReadOptionalText(q[5]) == Some(e.producerAttemptId)
            && ReadText(q[6]) == Some(e.semanticType)
            && ReadText(q[7]) == Some(e.representation)
            && ReadStateLifecycle(q[8]) == Some(e.lifecycle)
            && ReadStateValidity(q[9]) == Some(e.validity)
            && ReadIds(q[10]) == Some(e.derivedFrom)
            && ReadOptionalText(q[11]) == Some(e.producerPhaseId)
  {
    hide IdsValue, OptionalText, OriginTypeValue, ReadIds, ReadOptionalText, ReadOriginType, ReadStateLifecycle,
        ReadStateValidity, StateLifecycleValue, StateValidityValue, C.Storable, C.Hashable;
    var row := ReusableStateRow(e);
    assert q == row <==> (q[0] == row[0] && q[1] == row[1] && q[2] == row[2] && q[3] == row[3] && q[4] == row[4] &&
      q[5] == row[5] && q[6] == row[6] && q[7] == row[7] && q[8] == row[8] && q[9] == row[9] && q[10] == row[10] &&
      q[11] == row[11]);
    OriginTypeReads(q[1], e.originType);
    OptionalTextReads(q[4], e.originRequestId);
    OptionalTextReads(q[5], e.producerAttemptId);
    StateLifecycleReads(q[8], e.lifecycle);
    StateValidityReads(q[9], e.validity);
    IdsRead(q[10], e.derivedFrom);
    OptionalTextReads(q[11], e.producerPhaseId);
  }

  lemma ReusableStateReads()
    ensures Inverts(ReadReusableState, ReusableStateValue)
  {
    hide C.Hashable, C.Names, C.Storable, Columns, IdsValue, OptionalText, OriginTypeValue, ReadIds, ReadOptionalText,
        ReadOriginType, ReadStateLifecycle, ReadStateValidity, ReadText, Record, StateLifecycleValue,
        StateValidityValue;
    forall v, e: ReusableState ensures ReadReusableState(v) == Some(e) <==> v == ReusableStateValue(e) {
      ColumnsMean(v, C.ReusableStateClass, ReusableStateRow(e));
      var q := Columns(v, C.ReusableStateClass);
      if q.Some? {
        ReusableStateRowReads(q.value, e);
      }
    }
  }

  function ReadStateReplica(v: Value): Option<StateReplica> {
    var q := Columns(v, C.StateReplicaClass);
    if q.None? then None else
      var id := ReadText(q.value[0]);
      var stateId := ReadText(q.value[1]);
      var locationId := ReadText(q.value[2]);
      var status := ReadReplicaStatus(q.value[3]);
      var bindingId := ReadOptionalText(q.value[4]);
      var bindingEpoch := ReadOptionalInt(q.value[5]);
      if id.Some? && stateId.Some? && locationId.Some? && status.Some? && bindingId.Some? && bindingEpoch.Some?
      then Some(StateReplica(id.value, stateId.value, locationId.value, status.value, bindingId.value,
          bindingEpoch.value)) else None
  }

  lemma StateReplicaReads()
    ensures Inverts(ReadStateReplica, StateReplicaValue)
  {
    hide OptionalInt, OptionalText, ReadOptionalInt, ReadOptionalText, ReadReplicaStatus, ReplicaStatusValue, C.Names,
        C.Storable, C.Hashable, Record, Columns;
    forall v, e: StateReplica ensures ReadStateReplica(v) == Some(e) <==> v == StateReplicaValue(e) {
      ColumnsMean(v, C.StateReplicaClass, StateReplicaRow(e));
      var q := Columns(v, C.StateReplicaClass);
      var row := StateReplicaRow(e);
      if q.Some? {
        ReplicaStatusReads(q.value[3], e.status);
        OptionalTextReads(q.value[4], e.bindingId);
        OptionalIntReads(q.value[5], e.bindingEpoch);
        assert q.value == row <==> (q.value[0] == row[0] && q.value[1] == row[1] && q.value[2] == row[2] &&
          q.value[3] == row[3] && q.value[4] == row[4] && q.value[5] == row[5]);
      }
    }
  }

  function ReadBinding(v: Value): Option<Binding> {
    var q := Columns(v, C.BindingClass);
    if q.None? then None else
      var id := ReadText(q.value[0]);
      var subjectId := ReadText(q.value[1]);
      var locationId := ReadText(q.value[2]);
      var baseEpoch := ReadInt(q.value[3]);
      var epoch := ReadInt(q.value[4]);
      var status := ReadBindingStatus(q.value[5]);
      if id.Some? && subjectId.Some? && locationId.Some? && baseEpoch.Some? && epoch.Some? && status.Some?
      then Some(Binding(id.value, subjectId.value, locationId.value, baseEpoch.value, epoch.value,
          status.value)) else None
  }

  lemma BindingReads()
    ensures Inverts(ReadBinding, BindingValue)
  {
    hide BindingStatusValue, ReadBindingStatus, C.Names, C.Storable, C.Hashable, Record, Columns;
    forall v, e: Binding ensures ReadBinding(v) == Some(e) <==> v == BindingValue(e) {
      ColumnsMean(v, C.BindingClass, BindingRow(e));
      var q := Columns(v, C.BindingClass);
      var row := BindingRow(e);
      if q.Some? {
        BindingStatusReads(q.value[5], e.status);
        assert q.value == row <==> (q.value[0] == row[0] && q.value[1] == row[1] && q.value[2] == row[2] &&
          q.value[3] == row[3] && q.value[4] == row[4] && q.value[5] == row[5]);
      }
    }
  }

  function ReadEvidence(v: Value): Option<Evidence> {
    var q := Columns(v, C.EvidenceClass);
    if q.None? then None else
      var id := ReadText(q.value[0]);
      var claim := ReadText(q.value[1]);
      var source := ReadText(q.value[2]);
      var authority := ReadEvidenceAuthority(q.value[3]);
      var status := ReadEvidenceStatus(q.value[4]);
      var observedAt := ReadFloat(q.value[5]);
      var scope := ReadLabels(q.value[6]);
      var validUntil := ReadOptionalFloat(q.value[7]);
      var confidence := ReadOptionalFloat(q.value[8]);
      var derivedFrom := ReadIds(q.value[9]);
      var derivationRule := ReadOptionalText(q.value[10]);
      var claimKey := ReadOptionalText(q.value[11]);
      var claimValue := ReadOptionalText(q.value[12]);
      if id.Some? && claim.Some? && source.Some? && authority.Some? && status.Some? && observedAt.Some? 
        && scope.Some? && validUntil.Some? && confidence.Some? && derivedFrom.Some? && derivationRule.Some?
        && claimKey.Some? && claimValue.Some?
      then
        var e := EvidenceRecord(id.value, claim.value, source.value, authority.value, status.value, observedAt.value,
          scope.value, validUntil.value, confidence.value, derivedFrom.value, derivationRule.value, claimKey.value,
          claimValue.value);
        if ClaimPaired(e) then Some(e) else None
      else None
  }

  lemma EvidenceRowReads(q: seq<Value>, e: Evidence)
    requires |q| == |EvidenceRow(e)|
    ensures q == EvidenceRow(e) <==>
            && ReadText(q[0]) == Some(e.id)
            && ReadText(q[1]) == Some(e.claim)
            && ReadText(q[2]) == Some(e.source)
            && ReadEvidenceAuthority(q[3]) == Some(e.authority)
            && ReadEvidenceStatus(q[4]) == Some(e.status)
            && ReadFloat(q[5]) == Some(e.observedAt)
            && ReadLabels(q[6]) == Some(e.scope)
            && ReadOptionalFloat(q[7]) == Some(e.validUntil)
            && ReadOptionalFloat(q[8]) == Some(e.confidence)
            && ReadIds(q[9]) == Some(e.derivedFrom)
            && ReadOptionalText(q[10]) == Some(e.derivationRule)
            && ReadOptionalText(q[11]) == Some(e.claimKey)
            && ReadOptionalText(q[12]) == Some(e.claimValue)
  {
    hide EvidenceAuthorityValue, EvidenceStatusValue, IdsValue, LabelsValue, OptionalFloat, OptionalText,
        ReadEvidenceAuthority, ReadEvidenceStatus, ReadIds, ReadLabels, ReadOptionalFloat, ReadOptionalText,
        C.Storable, C.Hashable;
    var row := EvidenceRow(e);
    assert q == row <==> (q[0] == row[0] && q[1] == row[1] && q[2] == row[2] && q[3] == row[3] && q[4] == row[4] &&
      q[5] == row[5] && q[6] == row[6] && q[7] == row[7] && q[8] == row[8] && q[9] == row[9] && q[10] == row[10] &&
      q[11] == row[11] && q[12] == row[12]);
    EvidenceAuthorityReads(q[3], e.authority);
    EvidenceStatusReads(q[4], e.status);
    LabelsRead(q[6], e.scope);
    OptionalFloatReads(q[7], e.validUntil);
    OptionalFloatReads(q[8], e.confidence);
    IdsRead(q[9], e.derivedFrom);
    OptionalTextReads(q[10], e.derivationRule);
    OptionalTextReads(q[11], e.claimKey);
    OptionalTextReads(q[12], e.claimValue);
  }

  lemma EvidenceReads()
    ensures Inverts(ReadEvidence, EvidenceValue)
  {
    hide C.Hashable, C.Names, C.Storable, Columns, EvidenceAuthorityValue, EvidenceStatusValue, IdsValue, LabelsValue,
        OptionalFloat, OptionalText, ReadEvidenceAuthority, ReadEvidenceStatus, ReadIds, ReadLabels,
        ReadOptionalFloat, ReadOptionalText, ReadText, Record;
    forall v, e: Evidence ensures ReadEvidence(v) == Some(e) <==> v == EvidenceValue(e) {
      ColumnsMean(v, C.EvidenceClass, EvidenceRow(e));
      var q := Columns(v, C.EvidenceClass);
      if q.Some? {
        EvidenceRowReads(q.value, e);
      }
    }
  }

  function ReadOutput(v: Value): Option<Output> {
    var q := Columns(v, C.OutputClass);
    if q.None? then None else
      var id := ReadText(q.value[0]);
      var attemptId := ReadText(q.value[1]);
      var terminal := ReadBool(q.value[2]);
      var evidenceIds := ReadIds(q.value[3]);
      if id.Some? && attemptId.Some? && terminal.Some? && evidenceIds.Some?
      then Some(Output(id.value, attemptId.value, terminal.value, evidenceIds.value)) else None
  }

  lemma OutputReads()
    ensures Inverts(ReadOutput, OutputValue)
  {
    hide IdsValue, ReadIds, C.Names, C.Storable, C.Hashable, Record, Columns;
    forall v, e: Output ensures ReadOutput(v) == Some(e) <==> v == OutputValue(e) {
      ColumnsMean(v, C.OutputClass, OutputRow(e));
      var q := Columns(v, C.OutputClass);
      var row := OutputRow(e);
      if q.Some? {
        IdsRead(q.value[3], e.evidenceIds);
        assert q.value == row <==> (q.value[0] == row[0] && q.value[1] == row[1] && q.value[2] == row[2] &&
          q.value[3] == row[3]);
      }
    }
  }

  function ReadSemanticEvent(v: Value): Option<SemanticEvent> {
    var q := Columns(v, C.SemanticEventClass);
    if q.None? then None else
      var id := ReadText(q.value[0]);
      var kind := ReadText(q.value[1]);
      var subjectType := ReadText(q.value[2]);
      var subjectId := ReadText(q.value[3]);
      var payload := ReadLabels(q.value[4]);
      if id.Some? && kind.Some? && subjectType.Some? && subjectId.Some? && payload.Some?
      then Some(SemanticEvent(id.value, kind.value, subjectType.value, subjectId.value, payload.value)) else None
  }

  lemma SemanticEventReads()
    ensures Inverts(ReadSemanticEvent, SemanticEventValue)
  {
    hide LabelsValue, ReadLabels, C.Names, C.Storable, C.Hashable, Record, Columns;
    forall v, e: SemanticEvent ensures ReadSemanticEvent(v) == Some(e) <==> v == SemanticEventValue(e) {
      ColumnsMean(v, C.SemanticEventClass, SemanticEventRow(e));
      var q := Columns(v, C.SemanticEventClass);
      var row := SemanticEventRow(e);
      if q.Some? {
        LabelsRead(q.value[4], e.payload);
        assert q.value == row <==> (q.value[0] == row[0] && q.value[1] == row[1] && q.value[2] == row[2] &&
          q.value[3] == row[3] && q.value[4] == row[4]);
      }
    }
  }
}
