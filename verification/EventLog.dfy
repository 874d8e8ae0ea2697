/** The exported event log of a core, and what replaying it into another core does. */
module EventLog {
  import opened Entities
  import opened CoreSpec
  import opened CoreRuns
  import opened Invariant
  import opened LiveCore
  import opened RunInvariant
  import opened Images
  import opened Readers

  const EVENT_TRACE_SCHEMA := "cadi.semantic-event.v1"

  // ---------- one record ----------

  ghost function EventRecord(e: SemanticEvent, order: C.IterationOrder, le: (C.Json, C.Json) -> bool): C.Json
    requires C.Enumerates(order)
  {
    C.JObj(map["schema" := C.JText(EVENT_TRACE_SCHEMA), "event" := C.Encode(SemanticEventValue(e), order, le)])
  }

  /** The record has the schema and its event field decodes to `e`. */
  ghost predicate RecordOf(j: C.Json, e: SemanticEvent) {
    && j.JObj? && "schema" in j.members && j.members["schema"] == C.JText(EVENT_TRACE_SCHEMA)
    && "event" in j.members && C.Decode(j.members["event"]) == Some(SemanticEventValue(e))
  }

  /** An event is recovered from its record, and from no other event's record. */
  lemma EventRecordRoundTrip(e: SemanticEvent, f: SemanticEvent, order: C.IterationOrder, le: (C.Json, C.Json) -> bool)
    requires C.Enumerates(order)
    ensures RecordOf(EventRecord(e, order, le), f) <==> e == f
  {
    SemanticEventStorable(e);
    C.DecodeEncode(SemanticEventValue(e), order, le);
    if SemanticEventValue(e) == SemanticEventValue(f) {
      SemanticEventReads();
      InvertsInjective(ReadSemanticEvent, SemanticEventValue, e, f);
    }
    hide C.Encode, C.Decode, SemanticEventValue, C.Storable;
  }

  // ---------- the log ----------

  ghost predicate LogStands(c: Core) {
    EventsKeyed(c.events) && EventsStand(c.events, c.eventOrder)
  }

  ghost function Log(c: Core): seq<SemanticEvent>
    requires LogStands(c)
  {
    seq(|c.eventOrder|, i requires 0 <= i < |c.eventOrder| => c.events[c.eventOrder[i]])
  }

  datatype Logged = Logged(core: Core, complete: bool)

  ghost function Recorded(c: Core, e: SemanticEvent): Core {
    if e.id in c.events then c else AfterRecordEvent(c, e)
  }

  /** One event after the other; the first refusal ends the replay and keeps what was recorded. */
  ghost function ReplayLog(c: Core, log: seq<SemanticEvent>): Logged
    decreases |log|
  {
    if log == [] then Logged(c, true)
    else if EventFaults(c, log[0]) != {} then Logged(c, false)
    else ReplayLog(Recorded(c, log[0]), log[1..])
  }

  method ReplayEventLog(core: ContinuityCore, log: seq<SemanticEvent>) returns (r: Result<()>)
    requires core.Valid()
    modifies core
    ensures core.Valid() && Logged(core.View(), r.Ok?) == ReplayLog(old(core.View()), log)
  {
    hide WellFormed, EventFaults;
    ghost var start := core.View();
    for k := 0 to |log|
      invariant core.Valid()
      invariant ReplayLog(start, log) == ReplayLog(core.View(), log[k..])
    {
      ghost var rest := log[k..];
      assert rest[0] == log[k] && rest[1..] == log[k + 1..];
      var recorded := core.RecordEvent(log[k]);
      if recorded.Err? {
        return Err(recorded.error);
      }
    }
    r := Ok(());
  }

  /** Events that share an identifier are the same event. */
  ghost predicate Agreeing(log: seq<SemanticEvent>) {
    forall i, j :: 0 <= i < j < |log| && log[i].id == log[j].id ==> log[i] == log[j]
  }

  /** The identifiers outside `known` of the events of the log, each where it first occurs. */
  function NewIds(known: set<Id>, log: seq<SemanticEvent>): seq<Id>
    decreases log
  {
    if log == [] then []
    else if log[0].id in known then NewIds(known, log[1..])
    else [log[0].id] + NewIds(known + {log[0].id}, log[1..])
  }

  /** The events of the log added to `events`. */
  ghost predicate Adds(events: map<Id, SemanticEvent>, log: seq<SemanticEvent>, merged: map<Id, SemanticEvent>) {
    && (forall k :: k in merged <==> k in events || exists i :: 0 <= i < |log| && log[i].id == k)
    && (forall k :: k in events ==> merged[k] == events[k])
    && forall i :: 0 <= i < |log| ==> log[i].id in merged && merged[log[i].id] == log[i]
  }

  ghost predicate OnlyEventsDiffer(c: Core, d: Core) {
    d == c.(events := d.events, eventOrder := d.eventOrder)
  }

  /** `merged` is `c` with the log's events added in the order of the log, and nothing else touched. */
  ghost predicate Merges(c: Core, log: seq<SemanticEvent>, merged: Core) {
    && OnlyEventsDiffer(c, merged)
    && Adds(c.events, log, merged.events)
    && merged.eventOrder == c.eventOrder + NewIds(c.events.Keys, log)
  }

  lemma TakenElsewhere(c: Core, e: SemanticEvent, id: Id)
    requires id != e.id && e.id !in c.events
    ensures Taken(AfterRecordEvent(c, e), id) <==> Taken(c, id)
    ensures AfterRecordEvent(c, e).events == c.events[e.id := e]
  {
    var d := AfterRecordEvent(c, e);
    assert d.programs == c.programs && d.sessions == c.sessions && d.continuations == c.continuations;
    assert d.requests == c.requests && d.attempts == c.attempts && d.phases == c.phases;
    assert d.states == c.states && d.replicas == c.replicas && d.bindings == c.bindings;
    assert d.evidence == c.evidence && d.outputs == c.outputs;
    assert id in d.events <==> id in c.events;
    hide AfterRecordEvent;
  }

  lemma FaultsElsewhere(c: Core, e: SemanticEvent, x: SemanticEvent)
    requires x.id != e.id
    ensures EventFaults(Recorded(c, e), x) == EventFaults(c, x)
  {
    hide Taken, AfterRecordEvent;
    if e.id !in c.events {
      TakenElsewhere(c, e, x.id);
    }
  }

  lemma FaultsOfTheSame(c: Core, e: SemanticEvent, x: SemanticEvent)
    requires x.id == e.id && EventFaults(c, e) == {}
    ensures EventFaults(Recorded(c, e), x) == {} <==> x == e
  {
    hide Taken;
    assert e.id in Recorded(c, e).events && Recorded(c, e).events[e.id] == e;
  }

  lemma FaultsAfter(c: Core, e: SemanticEvent, x: SemanticEvent)
    requires EventFaults(c, e) == {}
    ensures EventFaults(Recorded(c, e), x) == {} <==> EventFaults(c, x) == {} && (x.id == e.id ==> x == e)
  {
    hide Recorded, EventFaults;
    if x.id == e.id {
      FaultsOfTheSame(c, e, x);
    } else {
      FaultsElsewhere(c, e, x);
    }
  }

  /**
   A log is accepted exactly when each of its events is and repeated identifiers carry equal events; it
   then adds its new events, each where it first occurs.
   */
  lemma {:induction false} ReplayLogMerges(c: Core, log: seq<SemanticEvent>)
    ensures ReplayLog(c, log).complete <==> Agreeing(log) && forall i :: 0 <= i < |log| ==> EventFaults(c, log[i]) == {}
    ensures ReplayLog(c, log).complete ==> Merges(c, log, ReplayLog(c, log).core)
    decreases |log|
  {
    hide EventFaults, Recorded, Merges;
    if log == [] {
      NothingMerges(c);
    } else if EventFaults(c, log[0]) == {} {
      var e, rest := log[0], log[1..];
      ReplayLogMerges(Recorded(c, e), rest);
      forall i | 0 <= i < |rest| {
        FaultsAfter(c, e, rest[i]);
      }
      assert forall i :: 1 <= i < |log| ==> log[i] == rest[i - 1];
      if ReplayLog(c, log).complete {
        MergeHead(c, log, ReplayLog(c, log).core);
      }
    }
  }

  lemma NothingMerges(c: Core)
    ensures Merges(c, [], c)
  {
    assert c.eventOrder + [] == c.eventOrder;
  }

  lemma MergeHead(c: Core, log: seq<SemanticEvent>, merged: Core)
    requires log != [] && EventFaults(c, log[0]) == {}
    requires Merges(Recorded(c, log[0]), log[1..], merged)
    ensures Merges(c, log, merged)
  {
    hide Adds, OnlyEventsDiffer;
    var e := log[0];
    assert OnlyEventsDiffer(c, merged) by {
      MergeTouchesEvents(c, e, merged);
    }
    if e.id in c.events {
      AddsKnown(c.events, log, merged.events);
    } else {
      assert c.events[e.id := e].Keys == c.events.Keys + {e.id};
      AddsNew(c.events, log, merged.events);
    }
  }

  lemma MergeTouchesEvents(c: Core, e: SemanticEvent, merged: Core)
    requires OnlyEventsDiffer(Recorded(c, e), merged)
    ensures OnlyEventsDiffer(c, merged)
  {
  }

  lemma AddsKnown(events: map<Id, SemanticEvent>, log: seq<SemanticEvent>, merged: map<Id, SemanticEvent>)
    requires log != [] && log[0].id in events && events[log[0].id] == log[0] && Adds(events, log[1..], merged)
    ensures Adds(events, log, merged)
  {
    AddsTail(events, log, merged);
  }

  lemma AddsTail(events: map<Id, SemanticEvent>, log: seq<SemanticEvent>, merged: map<Id, SemanticEvent>)
    requires log != [] && Adds(events, log[1..], merged)
    ensures forall i :: 1 <= i < |log| ==> log[i].id in merged && merged[log[i].id] == log[i]
    ensures forall k :: k in merged ==> k in events || exists i :: 0 <= i < |log| && log[i].id == k
  {
    var rest := log[1..];
    forall i | 1 <= i < |log| ensures log[i].id in merged && merged[log[i].id] == log[i] {
      assert log[i] == rest[i - 1];
    }
    forall k | k in merged ensures k in events || exists i :: 0 <= i < |log| && log[i].id == k {
      if k !in events {
        var i :| 0 <= i < |rest| && rest[i].id == k;
        assert log[i + 1].id == k;
      }
    }
  }

  lemma AddsNew(events: map<Id, SemanticEvent>, log: seq<SemanticEvent>, merged: map<Id, SemanticEvent>)
    requires log != [] && log[0].id !in events && Adds(events[log[0].id := log[0]], log[1..], merged)
    ensures Adds(events, log, merged)
  {
    var e := log[0];
    AddsTail(events[e.id := e], log, merged);
    assert e.id in events[e.id := e] && log[0].id == e.id;
  }

  lemma LogIsDistinct(c: Core)
    requires LogStands(c)
    ensures Agreeing(Log(c)) && |Log(c)| == |c.eventOrder|
    ensures forall i :: 0 <= i < |Log(c)| ==>
            Log(c)[i].id == c.eventOrder[i] && c.eventOrder[i] in c.events && c.events[c.eventOrder[i]] == Log(c)[i]
  {
    forall i | 0 <= i < |c.eventOrder| ensures c.eventOrder[i] in c.events {
      assert c.eventOrder[i] in c.eventOrder;
    }
  }

  lemma {:induction false} AllNew(known: set<Id>, log: seq<SemanticEvent>, ids: seq<Id>)
    requires |log| == |ids| && forall i :: 0 <= i < |log| ==> log[i].id == ids[i] && ids[i] !in known
    requires forall i, j :: 0 <= i < j < |ids| ==> ids[i] != ids[j]
    ensures NewIds(known, log) == ids
    decreases log
  {
    if log != [] {
      AllNew(known + {ids[0]}, log[1..], ids[1..]);
    }
  }

  lemma {:induction false} NoneNew(known: set<Id>, log: seq<SemanticEvent>)
    requires forall i :: 0 <= i < |log| ==> log[i].id in known
    ensures NewIds(known, log) == []
  {
    if log != [] {
      NoneNew(known, log[1..]);
    }
  }

  /** Replaying a core's own log into an empty core rebuilds its events and their order. */
  lemma LogRebuildsEvents(c: Core)
    requires LogStands(c)
    ensures ReplayLog(EmptyCore, Log(c)) == Logged(EmptyCore.(events := c.events, eventOrder := c.eventOrder), true)
  {
    hide Log, ReplayLog, EventFaults, LogStands, Adds;
    LogIsDistinct(c);
    var log := Log(c);
    forall e ensures EventFaults(EmptyCore, e) == {} {
      AnyEventInEmpty(e);
    }
    ReplayLogMerges(EmptyCore, log);
    EventsInOrder(c);
    AllNew(EmptyCore.events.Keys, log, c.eventOrder);
    AddsToNothing(c, log, ReplayLog(EmptyCore, log).core.events);
  }

  lemma AnyEventInEmpty(e: SemanticEvent)
    ensures EventFaults(EmptyCore, e) == {}
  {
  }

  lemma EventsInOrder(c: Core)
    requires LogStands(c)
    ensures forall i, j :: 0 <= i < j < |c.eventOrder| ==> c.eventOrder[i] != c.eventOrder[j]
    ensures EmptyCore.events == map[] && EmptyCore.eventOrder + c.eventOrder == c.eventOrder
  {
  }

  lemma AddsToNothing(c: Core, log: seq<SemanticEvent>, merged: map<Id, SemanticEvent>)
    requires LogStands(c) && |log| == |c.eventOrder|
    requires forall i :: 0 <= i < |log| ==>
             log[i].id == c.eventOrder[i] && c.eventOrder[i] in c.events && c.events[c.eventOrder[i]] == log[i]
    requires Adds(map[], log, merged)
    ensures merged == c.events
  {
    forall k | k in c.events ensures k in merged && merged[k] == c.events[k] {
      assert k in c.eventOrder;
      var i :| 0 <= i < |c.eventOrder| && c.eventOrder[i] == k;
      assert log[i].id == k;
    }
  }

  /** Replaying it into the core itself changes nothing. */
  lemma LogIsIdempotent(c: Core)
    requires LogStands(c)
    ensures ReplayLog(c, Log(c)) == Logged(c, true)
  {
    hide Log;
    LogIsDistinct(c);
    var log := Log(c);
    ReplayLogMerges(c, log);
    NoneNew(c.events.Keys, log);
    var r := ReplayLog(c, log);
    assert forall i :: 0 <= i < |log| ==> EventFaults(c, log[i]) == {};
    assert forall k :: k in r.core.events <==> k in c.events;
    assert r.core.events == c.events;
    assert c.eventOrder + [] == c.eventOrder;
  }

  lemma RunsKeepTheLog(ops: seq<Op>)
    ensures LogStands(Run(EmptyCore, ops))
  {
    EmptyIsSound();
    RunKeepsSound(EmptyCore, ops);
  }

  /** Both hold after every run. */
  lemma ExportedLogRoundTrip(ops: seq<Op>)
    ensures var c := Run(EmptyCore, ops);
            && LogStands(c)
            && ReplayLog(EmptyCore, Log(c)) == Logged(EmptyCore.(events := c.events, eventOrder := c.eventOrder), true)
            && ReplayLog(c, Log(c)) == Logged(c, true)
  {
    hide LogStands, ReplayLog;
    RunsKeepTheLog(ops);
    LogRebuildsEvents(Run(EmptyCore, ops));
    LogIsIdempotent(Run(EmptyCore, ops));
  }
}
