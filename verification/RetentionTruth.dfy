/**
 The ground truth of a program, the reference working set computed from it, and what a run under
 LIFECYCLE_B4 does when its capacity covers that reference.
 */
module RetentionTruth {
  import opened Entities
  import opened Sorting
  import opened RetentionModel
  import opened RetentionRuns
  import opened RetentionTime

  type TruthMap = map<Id, Truth>

  // ---------- the reference computation ----------

  predicate KnownStates(known: set<Id>, k: EventKind) {
    k.SessionStatus? || k.state in known
  }

  function TruthStep(t: TruthMap, k: EventKind): (r: TruthMap)
    requires KnownStates(t.Keys, k)
    ensures r.Keys == t.Keys
  {
    match k
    case Invalidate(s) => t[s := t[s].(valid := false)]
    case Dependents(s, l) => t[s := t[s].(lifecycle := DeriveLifecycle(l))]
    case Admit(s) => t[s := t[s].(produced := true)]
    case _ => t
  }

  function TruthOver(t: TruthMap, q: seq<Event>): (r: TruthMap)
    requires forall i :: 0 <= i < |q| ==> KnownStates(t.Keys, q[i].kind)
    ensures r.Keys == t.Keys
  {
    if q == [] then t else TruthStep(TruthOver(t, q[..|q| - 1]), q[|q| - 1].kind)
  }

  /** Produced, valid and still wanted by some continuation. */
  function WorkingSet(t: TruthMap): set<Id> {
    set s | s in t && t[s].produced && t[s].valid && t[s].lifecycle != Terminal
  }

  function InitialTruth(p: Case): TruthMap {
    map s | s in p.states :: Truth(true, DeriveLifecycle(p.states[s].dependents), false)
  }

  /** Every event names a declared State or Session. */
  ghost predicate EventsKnown(p: Case) {
    forall e :: e in p.events ==> KnownNames(p, e.kind)
  }

  lemma BatchStates(p: Case, t: real)
    requires EventsKnown(p)
    ensures forall i :: 0 <= i < |Batch(p, t)| ==> KnownStates(p.states.Keys, Batch(p, t)[i].kind)
  {
    var q := Batch(p, t);
    forall i | 0 <= i < |q| ensures KnownStates(p.states.Keys, q[i].kind) {
      assert q[i] in q;
      assert KnownNames(p, q[i].kind);
    }
  }

  /** The truth after the first k external instants, each handled in (phase, ordinal) order. */
  ghost function TruthAfter(p: Case, times: seq<real>, k: nat): (r: TruthMap)
    requires EventsKnown(p) && k <= |times|
    ensures r.Keys == p.states.Keys
  {
    if k == 0 then InitialTruth(p) else
      BatchStates(p, times[k - 1]);
      TruthOver(TruthAfter(p, times, k - 1), Batch(p, times[k - 1]))
  }

  /** The bytes wanted at the end of the k-th external instant. */
  ghost function WantedAfter(p: Case, times: seq<real>, k: nat): nat
    requires EventsKnown(p) && k <= |times|
  {
    |WorkingSet(TruthAfter(p, times, k))| * STATE_BYTES
  }

  ghost function Largest(p: Case, times: seq<real>, k: nat): nat
    requires EventsKnown(p) && k <= |times|
  {
    if k == 0 then 0 else
      var now, before := WantedAfter(p, times, k), Largest(p, times, k - 1);
      if now > before then now else before
  }

  /** It is a bound, and it is reached. */
  lemma {:induction false} LargestIsReached(p: Case, times: seq<real>, k: nat)
    requires EventsKnown(p) && k <= |times|
    ensures forall i :: 1 <= i <= k ==> WantedAfter(p, times, i) <= Largest(p, times, k)
    ensures Largest(p, times, k) == 0 || exists i :: 1 <= i <= k && Largest(p, times, k) == WantedAfter(p, times, i)
  {
    hide EventsKnown, WantedAfter, TruthAfter;
    if k > 0 {
      LargestIsReached(p, times, k - 1);
      assert Largest(p, times, k) == WantedAfter(p, times, k) || Largest(p, times, k) == Largest(p, times, k - 1);
    }
  }

  /** The largest number of bytes the ground truth ever wants at the end of an external instant. */
  ghost function ReferenceWorkingSet(p: Case): nat
    requires EventsKnown(p)
  {
    Largest(p, ExternalTimes(p.events), |ExternalTimes(p.events)|)
  }

  method HandleInstant(truth: TruthMap, events: seq<Event>) returns (r: TruthMap)
    requires forall i :: 0 <= i < |events| ==> KnownStates(truth.Keys, events[i].kind)
    ensures r == TruthOver(truth, events)
  {
    r := truth;
    for i := 0 to |events|
      invariant r == TruthOver(truth, events[..i])
    {
      assert events[..i + 1][..i] == events[..i];
      r := TruthStep(r, events[i].kind);
    }
    assert events[..|events|] == events;
  }

  /** The reference, computed instant by instant; a program that never wants anything is refused. */
  method ReferenceWorkingSetBytes(p: Case) returns (r: Result<nat>)
    requires EventsKnown(p)
    ensures r == if ReferenceWorkingSet(p) > 0 then Ok(ReferenceWorkingSet(p)) else Err(ValueError)
  {
    hide WorkingSet, TruthOver;
    var truth := InitialTruth(p);
    var maximum: nat := 0;
    var times := ExternalTimes(p.events);
    for k := 0 to |times|
      invariant truth == TruthAfter(p, times, k)
      invariant maximum == Largest(p, times, k)
    {
      BatchStates(p, times[k]);
      truth := HandleInstant(truth, Batch(p, times[k]));
      var current := |WorkingSet(truth)| * STATE_BYTES;
      assert current == WantedAfter(p, times, k + 1);
      if current > maximum {
        maximum := current;
      }
    }
    if maximum <= 0 {
      return Err(ValueError);
    }
    return Ok(maximum);
  }

  // ---------- the engine's truth ----------

  predicate Matches(pass: Pass, k: EventKind) {
    match pass
    case Invalidating => k.Invalidate?
    case Updating => k.Dependents?
    case Reusing => false
    case Admitting => k.Admit?
  }

  /** What one pass does to the truth: the events of its kind, in order. */
  function TruthPass(t: TruthMap, q: seq<Event>, pass: Pass): (r: TruthMap)
    requires forall i :: 0 <= i < |q| ==> KnownStates(t.Keys, q[i].kind)
    ensures r.Keys == t.Keys
  {
    if q == [] then t else
      var before := TruthPass(t, q[..|q| - 1], pass);
      if Matches(pass, q[|q| - 1].kind) then TruthStep(before, q[|q| - 1].kind) else before
  }

  lemma PassStepTruth(e: Engine, p: Case, cfg: Config, pass: Pass, ev: Event)
    requires Ready(e.c, p) && KnownNames(p, ev.kind)
    ensures PassStep(e, p, cfg, pass, ev).c.truth == if Matches(pass, ev.kind) then TruthStep(e.c.truth, ev.kind)
            else e.c.truth
  {
    hide Note, Judge, Occurrence, DeriveLifecycle;
  }

  lemma {:induction false} PassTruth(e: Engine, p: Case, cfg: Config, pass: Pass, q: seq<Event>)
    requires Ready(e.c, p) && forall i :: 0 <= i < |q| ==> KnownNames(p, q[i].kind)
    ensures forall i :: 0 <= i < |q| ==> KnownStates(e.c.truth.Keys, q[i].kind)
    ensures PassOver(e, p, cfg, pass, q).c.truth == TruthPass(e.c.truth, q, pass)
  {
    hide PassStep;
    if q != [] {
      var n := |q| - 1;
      PassTruth(e, p, cfg, pass, q[..n]);
      PassStepTruth(PassOver(e, p, cfg, pass, q[..n]), p, cfg, pass, q[n]);
    }
  }

  lemma {:induction false} IdlePass(t: TruthMap, q: seq<Event>, pass: Pass)
    requires forall i :: 0 <= i < |q| ==> KnownStates(t.Keys, q[i].kind) && !Matches(pass, q[i].kind)
    ensures TruthPass(t, q, pass) == t
  {
    if q != [] {
      IdlePass(t, q[..|q| - 1], pass);
    }
  }

  lemma InertStep(t: TruthMap, k: EventKind)
    requires k.SessionStatus? || (k.Reuse? && k.state in t)
    ensures TruthStep(t, k) == t
  {
  }

  /** In phase order, going over the events kind by kind is going over them one by one. */
  lemma {:induction false} PassesInPhaseOrder(t: TruthMap, q: seq<Event>)
    requires Sorted(q, EventLe) && forall i :: 0 <= i < |q| ==> KnownStates(t.Keys, q[i].kind)
    ensures TruthPass(TruthPass(TruthPass(t, q, Invalidating), q, Updating), q, Admitting) == TruthOver(t, q)
  {
    hide TruthStep, KnownStates;
    if q != [] {
      hide Sorted, EventLe;
      var x, rest := q[|q| - 1], q[..|q| - 1];
      LastInPhase(q);
      PassesInPhaseOrder(t, rest);
      hide TruthPass, TruthOver;
      LastOver(t, q);
      if x.kind.Invalidate? {
        LastInvalidates(t, q);
      } else if x.kind.Dependents? {
        LastUpdates(t, q);
      } else {
        LastOther(t, q);
      }
    }
  }

  /** What comes before the last event in phase order. */
  lemma LastInPhase(q: seq<Event>)
    requires Sorted(q, EventLe) && q != []
    ensures Sorted(q[..|q| - 1], EventLe)
    ensures q[|q| - 1].kind.Invalidate? ==> forall i :: 0 <= i < |q| ==> q[i].kind.Invalidate?
    ensures q[|q| - 1].kind.Dependents? ==> forall i :: 0 <= i < |q| ==> !q[i].kind.Admit?
  {
    var n := |q| - 1;
    assert forall i :: 0 <= i < n ==> EventLe(q[i], q[n]);
    assert forall i :: 0 <= i < n ==> q[..n][i] == q[i];
  }

  lemma LastOver(t: TruthMap, q: seq<Event>)
    requires q != [] && forall i :: 0 <= i < |q| ==> KnownStates(t.Keys, q[i].kind)
    ensures TruthOver(t, q) == TruthStep(TruthOver(t, q[..|q| - 1]), q[|q| - 1].kind)
  {
    hide TruthStep;
  }

  /** The last event in phase order takes its step after everything else, whichever pass it belongs to. */
  lemma LastPass(t: TruthMap, q: seq<Event>, pass: Pass)
    requires q != [] && forall i :: 0 <= i < |q| ==> KnownStates(t.Keys, q[i].kind)
    ensures var x, before := q[|q| - 1].kind, TruthPass(t, q[..|q| - 1], pass);
            TruthPass(t, q, pass) == if Matches(pass, x) then TruthStep(before, x) else before
  {
    hide TruthStep, Matches;
  }

  /** The three passes one after the other. */
  ghost function AllPasses(t: TruthMap, q: seq<Event>): (r: TruthMap)
    requires forall i :: 0 <= i < |q| ==> KnownStates(t.Keys, q[i].kind)
    ensures r.Keys == t.Keys
  {
    TruthPass(TruthPass(TruthPass(t, q, Invalidating), q, Updating), q, Admitting)
  }

  /** An invalidation comes last only after invalidations. */
  lemma LastInvalidates(t: TruthMap, q: seq<Event>)
    requires q != [] && forall i :: 0 <= i < |q| ==> KnownStates(t.Keys, q[i].kind) && q[i].kind.Invalidate?
    ensures AllPasses(t, q) == TruthStep(AllPasses(t, q[..|q| - 1]), q[|q| - 1].kind)
  {
    hide TruthStep, TruthPass;
    var rest := q[..|q| - 1];
    LastPass(t, q, Invalidating);
    IdlePass(TruthPass(t, q, Invalidating), q, Updating);
    IdlePass(TruthPass(t, q, Invalidating), q, Admitting);
    IdlePass(TruthPass(t, rest, Invalidating), rest, Updating);
    IdlePass(TruthPass(t, rest, Invalidating), rest, Admitting);
  }

  /** A lifecycle update comes last only after invalidations and updates. */
  lemma LastUpdates(t: TruthMap, q: seq<Event>)
    requires q != [] && q[|q| - 1].kind.Dependents?
    requires forall i :: 0 <= i < |q| ==> KnownStates(t.Keys, q[i].kind) && !q[i].kind.Admit?
    ensures AllPasses(t, q) == TruthStep(AllPasses(t, q[..|q| - 1]), q[|q| - 1].kind)
  {
    hide TruthStep, TruthPass;
    var rest := q[..|q| - 1];
    LastPass(t, q, Invalidating);
    var inv := TruthPass(t, rest, Invalidating);
    LastPass(inv, q, Updating);
    IdlePass(TruthPass(inv, q, Updating), q, Admitting);
    IdlePass(TruthPass(inv, rest, Updating), rest, Admitting);
  }

  lemma LastOther(t: TruthMap, q: seq<Event>)
    requires q != [] && forall i :: 0 <= i < |q| ==> KnownStates(t.Keys, q[i].kind)
    requires !q[|q| - 1].kind.Invalidate? && !q[|q| - 1].kind.Dependents?
    ensures AllPasses(t, q) == TruthStep(AllPasses(t, q[..|q| - 1]), q[|q| - 1].kind)
  {
    hide TruthStep, TruthPass;
    var rest := q[..|q| - 1];
    LastPass(t, q, Invalidating);
    var inv := TruthPass(t, rest, Invalidating);
    LastPass(inv, q, Updating);
    LastPass(TruthPass(inv, rest, Updating), q, Admitting);
    if !q[|q| - 1].kind.Admit? {
      InertStep(AllPasses(t, rest), q[|q| - 1].kind);
    }
  }

  lemma BeforeEnforcementTruth(e: Engine, p: Case, cfg: Config, batch: seq<Event>, now: real)
    requires Ready(e.c, p) && Regular(cfg.host) && forall i :: 0 <= i < |batch| ==> KnownNames(p, batch[i].kind)
    requires Sorted(batch, EventLe)
    ensures forall i :: 0 <= i < |batch| ==> KnownStates(e.c.truth.Keys, batch[i].kind)
    ensures BeforeEnforcement(e, p, cfg, batch, now).c.truth == TruthOver(e.c.truth, batch)
  {
    hide PassOver, PolicyReleases, TtlExpiries;
    PassTruth(e, p, cfg, Invalidating, batch);
    var invalidated := PassOver(e, p, cfg, Invalidating, batch);
    PassTruth(invalidated, p, cfg, Updating, batch);
    var updated := PassOver(invalidated, p, cfg, Updating, batch);
    var released := TtlExpiries(PolicyReleases(updated, p, cfg, now), cfg, now);
    PassTruth(released, p, cfg, Reusing, batch);
    IdlePass(released.c.truth, batch, Reusing);
    var reused := PassOver(released, p, cfg, Reusing, batch).(admitted := []);
    PassTruth(reused, p, cfg, Admitting, batch);
    PassesInPhaseOrder(e.c.truth, batch);
  }

  lemma BatchSorted(p: Case, times: seq<real>, k: nat, now: real)
    ensures Sorted(Events(p, times, k, now), EventLe)
  {
    SortSorts(At(p.events, now), EventLe);
  }

  lemma InstantTruth(e: Engine, p: Case, cfg: Config, batch: seq<Event>, now: real)
    requires Ready(e.c, p) && Regular(cfg.host) && forall i :: 0 <= i < |batch| ==> KnownNames(p, batch[i].kind)
    ensures Instant(e, p, cfg, batch, now).c.truth == BeforeEnforcement(e, p, cfg, batch, now).c.truth
  {
    hide BeforeEnforcement, Enforce;
  }

  lemma TurnKnown(l: Loop, p: Case, cfg: Config, times: seq<real>)
    requires Turn(l, p, cfg, times)
    ensures EventsKnown(p) && Ready(l.e.c, p) && Regular(cfg.host) && WellFormedCase(p)
  {
  }

  lemma AdvanceTruthOver(l: Loop, p: Case, cfg: Config, times: seq<real>, now: real)
    requires Turn(l, p, cfg, times)
    ensures var q := Events(p, times, l.k, now);
            && (forall i :: 0 <= i < |q| ==> KnownStates(l.e.c.truth.Keys, q[i].kind))
            && Advance(l, p, cfg, times, now).e.c.truth == TruthOver(l.e.c.truth, q)
  {
    hide Turn, WellFormedCase, Instant, Batch, BeforeEnforcement, TruthOver, Ready, Events, EventsKnown;
    TurnKnown(l, p, cfg, times);
    var batch := Events(p, times, l.k, now);
    BatchKnown(p, times, l.k, now);
    BatchSorted(p, times, l.k, now);
    BeforeEnforcementTruth(l.e, p, cfg, batch, now);
    InstantTruth(l.e, p, cfg, batch, now);
  }

  /** The truth of the engine after a turn: that of the reference at the same external instant. */
  lemma AdvanceTruth(l: Loop, p: Case, cfg: Config, times: seq<real>, now: real)
    requires Turn(l, p, cfg, times) && EventsKnown(p) && l.e.c.truth == TruthAfter(p, times, l.k)
    ensures Advance(l, p, cfg, times, now).e.c.truth == TruthAfter(p, times, Advance(l, p, cfg, times, now).k)
  {
    hide Advance, Batch, Turn, TruthOver, EventsKnown, TruthAfter, KnownStates;
    AdvanceTruthOver(l, p, cfg, times, now);
    if NextExternal(times, l.k) == Some(now) {
      NextTruth(p, times, l.k);
    } else {
      NothingOver(l.e.c.truth);
    }
  }

  lemma NextTruth(p: Case, times: seq<real>, k: nat)
    requires EventsKnown(p) && k < |times|
    ensures forall i :: 0 <= i < |Batch(p, times[k])| ==>
            KnownStates(TruthAfter(p, times, k).Keys, Batch(p, times[k])[i].kind)
    ensures TruthAfter(p, times, k + 1) == TruthOver(TruthAfter(p, times, k), Batch(p, times[k]))
  {
    BatchStates(p, times[k]);
    hide EventsKnown, Batch, TruthOver, KnownStates;
  }

  lemma NothingOver(t: TruthMap)
    ensures TruthOver(t, []) == t
  {
  }

  lemma {:induction false} RunTruth(l: Loop, p: Case, cfg: Config, times: seq<real>)
    requires Turn(l, p, cfg, times) && EventsKnown(p) && l.e.c.truth == TruthAfter(p, times, l.k)
    ensures RunFrom(l, p, cfg, times).e.c.truth == TruthAfter(p, times, RunFrom(l, p, cfg, times).k)
    decreases |times| - l.k, |l.e.c.resident.Keys|
  {
    hide Turn, Upcoming, Advance, TruthAfter;
    var next := Upcoming(l.e, p, cfg, times, l.k, l.last);
    if next.Some? {
      AdvanceDecreases(l, p, cfg, times);
      AdvanceTruth(l, p, cfg, times, next.value);
      RunTruth(Advance(l, p, cfg, times, next.value), p, cfg, times);
    }
  }

  /** The loop after n more turns, or where it stopped before. */
  ghost function AfterTurns(l: Loop, p: Case, cfg: Config, times: seq<real>, n: nat): (r: Loop)
    requires Turn(l, p, cfg, times)
    ensures Turn(r, p, cfg, times)
    decreases n
  {
    var next := Upcoming(l.e, p, cfg, times, l.k, l.last);
    if n == 0 || next.None? then l else AfterTurns(Advance(l, p, cfg, times, next.value), p, cfg, times, n - 1)
  }

  lemma {:induction false} TruthAfterTurns(l: Loop, p: Case, cfg: Config, times: seq<real>, n: nat)
    requires Turn(l, p, cfg, times) && EventsKnown(p) && l.e.c.truth == TruthAfter(p, times, l.k)
    ensures var r := AfterTurns(l, p, cfg, times, n); r.k <= |times| && r.e.c.truth == TruthAfter(p, times, r.k)
    decreases n
  {
    hide Upcoming, Advance, TruthAfter, EventsKnown, WellFormedCase, Ready;
    var next := Upcoming(l.e, p, cfg, times, l.k, l.last);
    if n > 0 && next.Some? {
      AdvanceTruth(l, p, cfg, times, next.value);
      TruthAfterTurns(Advance(l, p, cfg, times, next.value), p, cfg, times, n - 1);
    }
  }

  /** Each number of external instants up to the last is where some turn of the loop ends. */
  lemma {:induction false} InstantReached(l: Loop, p: Case, cfg: Config, times: seq<real>, k: nat) returns (n: nat)
    requires Turn(l, p, cfg, times) && l.k <= k <= RunFrom(l, p, cfg, times).k
    ensures AfterTurns(l, p, cfg, times, n).k == k
    decreases |times| - l.k, |l.e.c.resident.Keys|
  {
    hide Upcoming, Advance, Turn;
    n := 0;
    if l.k < k {
      var next := Upcoming(l.e, p, cfg, times, l.k, l.last);
      AdvanceDecreases(l, p, cfg, times);
      n := InstantReached(Advance(l, p, cfg, times, next.value), p, cfg, times, k);
      n := n + 1;
    }
  }

  /** The whole run after n turns of its loop. */
  ghost function TurnsOf(p: Case, cfg: Config, n: nat): Loop
    requires WellFormedCase(p) && Configured(cfg)
  {
    FirstTurnClock(p, cfg);
    AfterTurns(FirstTurn(p), p, cfg, ExternalTimes(p.events), n)
  }

  /**
   After every turn of every run the ground truth is the one the reference computes after the external
   instants handled so far.
   */
  lemma TruthAtEveryInstant(p: Case, cfg: Config, n: nat)
    requires WellFormedCase(p) && Configured(cfg)
    ensures EventsKnown(p)
    ensures var l := TurnsOf(p, cfg, n);
            l.k <= |ExternalTimes(p.events)| && l.e.c.truth == TruthAfter(p, ExternalTimes(p.events), l.k)
  {
    FirstTurnClock(p, cfg);
    hide WellFormedCase, Clock, TruthAfter, Turn, EventsKnown, AfterTurns, FirstTurn;
    TruthAfterTurns(FirstTurn(p), p, cfg, ExternalTimes(p.events), n);
  }

  /** Every external instant is where some turn ends, so the truths agree at each of them. */
  lemma EveryInstantReached(p: Case, cfg: Config, k: nat) returns (n: nat)
    requires WellFormedCase(p) && Configured(cfg) && k <= |ExternalTimes(p.events)|
    ensures TurnsOf(p, cfg, n).k == k
  {
    var times := ExternalTimes(p.events);
    FirstTurnClock(p, cfg);
    hide WellFormedCase, Clock, Turn, AfterTurns, FirstTurn, RunFrom, TruthAfter;
    VisitedFrom(FirstTurn(p), p, cfg, times);
    n := InstantReached(FirstTurn(p), p, cfg, times, k);
  }

  /** At equal external instants two runs have the same ground truth, whatever their policies and capacities. */
  lemma TruthIgnoresPolicy(p: Case, a: Config, b: Config, m: nat, n: nat)
    requires WellFormedCase(p) && Configured(a) && Configured(b)
    requires TurnsOf(p, a, m).k == TurnsOf(p, b, n).k
    ensures TurnsOf(p, a, m).e.c.truth == TurnsOf(p, b, n).e.c.truth
  {
    hide TurnsOf, WellFormedCase;
    TruthAtEveryInstant(p, a, m);
    TruthAtEveryInstant(p, b, n);
  }

  /** Every run ends with the truth the reference computes after the last external instant. */
  lemma TruthAtEnd(p: Case, cfg: Config)
    requires WellFormedCase(p) && Configured(cfg)
    ensures EventsKnown(p)
    ensures Looped(p, cfg).e.c.truth == TruthAfter(p, ExternalTimes(p.events), |ExternalTimes(p.events)|)
  {
    var times := ExternalTimes(p.events);
    FirstTurnClock(p, cfg);
    hide WellFormedCase, Clock, RunFrom, TruthAfter, Turn, FirstTurn, Visited, Upcoming;
    VisitedFrom(FirstTurn(p), p, cfg, times);
    RunTruth(FirstTurn(p), p, cfg, times);
  }
}
