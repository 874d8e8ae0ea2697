/** LIFECYCLE_B4 with room for the reference working set: it never evicts, is never infeasible and never raises. */
module RetentionWorkingSet {
  import opened Entities
  import opened Sorting
  import opened RetentionModel
  import opened RetentionRuns
  import opened RetentionSafety
  import opened RetentionCapacity
  import opened RetentionTime
  import opened RetentionTruth

  /** No eviction and no infeasibility on record. */
  ghost predicate Calm(e: Engine) {
    !e.c.infeasible && forall r :: r in e.audit ==> r.kind != NoteEvicted && r.kind != NoteInfeasible
  }

  /** Everything resident is produced and valid. */
  ghost predicate Live(c: Cache) {
    forall s :: s in c.resident ==> s in c.truth && c.truth[s].produced && c.truth[s].valid
  }

  /** Everything resident is in the working set of the ground truth. */
  ghost predicate Wanted(c: Cache) {
    c.resident.Keys <= WorkingSet(c.truth)
  }

  /** The working set of the truth fits the capacity. */
  ghost predicate Covered(t: TruthMap, cfg: Config) {
    |WorkingSet(t)| * STATE_BYTES <= cfg.capacity
  }

  lemma NoteKeepsCalm(e: Engine, cfg: Config, now: real, kind: AuditKind, state: Option<Id>)
    requires Calm(e) && kind != NoteEvicted && kind != NoteInfeasible
    ensures Calm(Note(e, cfg, now, kind, state))
  {
  }

  // ---------- invalidations and truth updates ----------

  lemma InvalidatedKeepsLive(e: Engine, cfg: Config, s: Id, now: real)
    requires s in e.c.truth && Live(e.c) && Calm(e)
    ensures Live(Invalidated(e, cfg, s, now).c) && Calm(Invalidated(e, cfg, s, now))
  {
    var marked := e.(c := e.c.(truth := e.c.truth[s := e.c.truth[s].(valid := false)]));
    var dropped := if s in e.c.resident then Drop(marked, s, now) else marked;
    assert Calm(dropped) && Live(dropped.c);
    hide Calm, Live, Note;
    NoteKeepsCalm(dropped, cfg, now, NoteInvalidated, Some(s));
  }

  lemma UpdatedKeepsLive(e: Engine, p: Case, cfg: Config, ev: Event)
    requires Ready(e.c, p) && KnownNames(p, ev.kind) && Live(e.c) && Calm(e)
    requires ev.kind.Dependents? || ev.kind.SessionStatus?
    ensures Live(PassStep(e, p, cfg, Updating, ev).c) && Calm(PassStep(e, p, cfg, Updating, ev))
  {
    hide DeriveLifecycle;
  }

  lemma PassStepKeepsLive(e: Engine, p: Case, cfg: Config, pass: Pass, ev: Event)
    requires Ready(e.c, p) && KnownNames(p, ev.kind) && Live(e.c) && Calm(e)
    requires pass == Invalidating || pass == Updating
    ensures Live(PassStep(e, p, cfg, pass, ev).c) && Calm(PassStep(e, p, cfg, pass, ev))
  {
    hide Live, Calm;
    if ev.kind.Invalidate? {
      InvalidatedKeepsLive(e, cfg, ev.kind.state, ev.time);
    } else if ev.kind.Dependents? || ev.kind.SessionStatus? {
      UpdatedKeepsLive(e, p, cfg, ev);
    }
    hide Invalidated, Relabelled, SessionSet, Reused, Admission, DeriveLifecycle;
  }

  lemma {:induction false} PassKeepsLive(e: Engine, p: Case, cfg: Config, pass: Pass, q: seq<Event>)
    requires Ready(e.c, p) && (forall i :: 0 <= i < |q| ==> KnownNames(p, q[i].kind))
    requires Live(e.c) && Calm(e) && (pass == Invalidating || pass == Updating)
    ensures Live(PassOver(e, p, cfg, pass, q).c) && Calm(PassOver(e, p, cfg, pass, q))
  {
    hide Live, Calm, PassStep;
    if q != [] {
      var n := |q| - 1;
      PassKeepsLive(e, p, cfg, pass, q[..n]);
      PassStepKeepsLive(PassOver(e, p, cfg, pass, q[..n]), p, cfg, pass, q[n]);
    }
  }

  // ---------- releases ----------

  lemma {:induction false} ReleaseKeepsCalm(e: Engine, cfg: Config, ids: seq<Id>, now: real, kind: AuditKind)
    requires (forall i :: 0 <= i < |ids| ==> ids[i] in e.c.resident) && forall i, j :: 0 <= i < j < |ids| ==>
             ids[i] != ids[j]
    requires Calm(e) && kind != NoteEvicted && kind != NoteInfeasible
    ensures Calm(ReleaseAll(e, cfg, ids, now, kind))
  {
    if ids != [] {
      var n := |ids| - 1;
      ReleaseKeepsCalm(e, cfg, ids[..n], now, kind);
      var before := ReleaseAll(e, cfg, ids[..n], now, kind);
      LastRemains(e.c.resident, ids);
      assert Calm(Drop(before, ids[n], now));
      hide Calm, Drop, Note;
      NoteKeepsCalm(Drop(before, ids[n], now), cfg, now, kind, Some(ids[n]));
    }
  }

  lemma ReleasesLeaveWanted(e: Engine, p: Case, cfg: Config, now: real)
    requires Ready(e.c, p) && Regular(cfg.host) && cfg.policy == LifecycleB4 && Live(e.c) && Calm(e)
    ensures var r := TtlExpiries(PolicyReleases(e, p, cfg, now), cfg, now); Wanted(r.c) && Calm(r)
  {
    SortedNamesIndexed(Releasable(e.c, p, cfg), cfg.host);
    ReleaseKeepsCalm(e, cfg, SortedNames(Releasable(e.c, p, cfg), cfg.host), now, NoteReleased);
    var released := PolicyReleases(e, p, cfg, now);
    SortedNamesIndexed(Expired(released.c, cfg, now), cfg.host);
    ReleaseKeepsCalm(released, cfg, SortedNames(Expired(released.c, cfg, now), cfg.host), now, NoteExpired);
  }

  // ---------- reuse ----------

  lemma ReuseStepKeepsWanted(e: Engine, p: Case, cfg: Config, ev: Event)
    requires Ready(e.c, p) && KnownNames(p, ev.kind) && Wanted(e.c) && Calm(e)
    ensures Wanted(PassStep(e, p, cfg, Reusing, ev).c) && Calm(PassStep(e, p, cfg, Reusing, ev))
  {
    if ev.kind.Reuse? {
      ReusedKeepsWanted(e, cfg, ev.kind.state, ev.kind.semanticValid, ev.time);
    }
    hide Calm, Wanted, Judge, Occurrence, DeriveLifecycle, Reused;
  }

  lemma ReusedKeepsWanted(e: Engine, cfg: Config, s: Id, valid: bool, now: real)
    requires s in e.c.truth && Wanted(e.c) && Calm(e)
    ensures Wanted(Reused(e, cfg, s, valid, now).c) && Calm(Reused(e, cfg, s, valid, now))
  {
  }

  lemma {:induction false} ReusePassKeepsWanted(e: Engine, p: Case, cfg: Config, q: seq<Event>)
    requires Ready(e.c, p) && (forall i :: 0 <= i < |q| ==> KnownNames(p, q[i].kind)) && Wanted(e.c) && Calm(e)
    ensures Wanted(PassOver(e, p, cfg, Reusing, q).c) && Calm(PassOver(e, p, cfg, Reusing, q))
  {
    hide Wanted, Calm, PassStep;
    if q != [] {
      var n := |q| - 1;
      ReusePassKeepsWanted(e, p, cfg, q[..n]);
      ReuseStepKeepsWanted(PassOver(e, p, cfg, Reusing, q[..n]), p, cfg, q[n]);
    }
  }

  // ---------- admission ----------

  lemma WantedActive(c: Cache, s: Id)
    requires Wanted(c) && s !in c.resident && s in WorkingSet(c.truth)
    ensures |ActiveResidents(c)| + 1 <= |WorkingSet(c.truth)|
  {
    SubsetSmaller(ActiveResidents(c) + {s}, WorkingSet(c.truth));
  }

  /** A State of the working set is never refused while the working set fits. */
  lemma NeverRefused(c: Cache, p: Case, cfg: Config, s: Id)
    requires Ready(c, p) && s in p.states && cfg.policy == LifecycleB4 && Wanted(c) && s !in c.resident
    requires c.truth[s].produced && c.truth[s].valid && Covered(c.truth, cfg)
    ensures Judge(c, p, cfg, s) != Refuse
    ensures Judge(c, p, cfg, s) == Accept ==> c.truth[s].lifecycle != Terminal
  {
    if c.truth[s].lifecycle != Terminal {
      WantedActive(c, s);
    }
    hide ActiveResidents, WorkingSet, Wanted;
  }

  lemma ProducedStaysWanted(e: Engine, s: Id)
    requires s in e.c.truth && Wanted(e.c) && Calm(e)
    ensures var produced := e.(c := e.c.(truth := e.c.truth[s := e.c.truth[s].(produced := true)]));
            && Wanted(produced.c) && Calm(produced) && WorkingSet(e.c.truth) <= WorkingSet(produced.c.truth)
  {
  }

  lemma AdmitStepKeepsWanted(e: Engine, p: Case, cfg: Config, ev: Event)
    requires Ready(e.c, p) && KnownNames(p, ev.kind) && cfg.policy == LifecycleB4 && Wanted(e.c) && Calm(e)
    requires var r := PassStep(e, p, cfg, Admitting, ev); Covered(r.c.truth, cfg)
    ensures var r := PassStep(e, p, cfg, Admitting, ev);
            Wanted(r.c) && Calm(r) && WorkingSet(e.c.truth) <= WorkingSet(r.c.truth)
  {
    hide NewResident, WorkingSet, Calm, Wanted, Judge, Covered;
    if ev.kind.Admit? {
      var s := ev.kind.state;
      ProducedStaysWanted(e, s);
      var produced := e.(c := e.c.(truth := e.c.truth[s := e.c.truth[s].(produced := true)]));
      NoteKeepsCalm(produced, cfg, ev.time, NoteSkipped, Some(s));
      if e.c.truth[s].valid && s !in e.c.resident {
        NeverRefused(produced.c, p, cfg, s);
        AdmittedWanted(produced.c, p, cfg, ev);
        AdmittedCalm(produced, p, cfg, ev);
      }
    }
    hide Note;
  }

  lemma AdmittedCalm(e: Engine, p: Case, cfg: Config, ev: Event)
    requires Calm(e) && ev.kind.Admit?
    ensures Calm(e.(c := e.c.(resident := e.c.resident[ev.kind.state := NewResident(p, cfg, ev)]),
            admitted := e.admitted + [ev.kind.state]))
  {
  }

  lemma AdmittedWanted(c: Cache, p: Case, cfg: Config, ev: Event)
    requires ev.kind.Admit? && cfg.policy == LifecycleB4 && Wanted(c)
    requires var s := ev.kind.state; s in c.truth && c.truth[s].produced && c.truth[s].valid
    ensures c.truth[ev.kind.state].lifecycle != Terminal ==>
            Wanted(c.(resident := c.resident[ev.kind.state := NewResident(p, cfg, ev)]))
  {
  }

  lemma {:induction false} AdmitPassKeepsWanted(e: Engine, p: Case, cfg: Config, q: seq<Event>)
    requires Ready(e.c, p) && (forall i :: 0 <= i < |q| ==> KnownNames(p, q[i].kind)) && cfg.policy == LifecycleB4
    requires Wanted(e.c) && Calm(e)
    requires Covered(PassOver(e, p, cfg, Admitting, q).c.truth, cfg)
    ensures var r := PassOver(e, p, cfg, Admitting, q); Wanted(r.c) && Calm(r)
  {
    hide Wanted, Calm, PassStep, WorkingSet, Ready, Covered;
    if q != [] {
      var n := |q| - 1;
      var before := PassOver(e, p, cfg, Admitting, q[..n]);
      AdmitTruthGrows(before, p, cfg, q[n]);
      AdmitPassKeepsWanted(e, p, cfg, q[..n]);
      AdmitStepKeepsWanted(before, p, cfg, q[n]);
    }
  }

  lemma AdmitTruthGrows(e: Engine, p: Case, cfg: Config, ev: Event)
    requires Ready(e.c, p) && KnownNames(p, ev.kind)
    ensures Covered(PassStep(e, p, cfg, Admitting, ev).c.truth, cfg) ==> Covered(e.c.truth, cfg)
  {
    PassStepTruth(e, p, cfg, Admitting, ev);
    hide PassStep;
    SubsetSmaller(WorkingSet(e.c.truth), WorkingSet(PassStep(e, p, cfg, Admitting, ev).c.truth));
  }

  /** What is wanted fits, so no ADMIT of the instant is overtaken. */
  lemma NeverTrips(e: Engine, p: Case, cfg: Config, q: seq<Event>)
    requires Ready(e.c, p) && (forall i :: 0 <= i < |q| ==> KnownNames(p, q[i].kind)) && cfg.policy == LifecycleB4
    requires Wanted(e.c) && Calm(e) && Covered(PassOver(e, p, cfg, Admitting, q).c.truth, cfg)
    ensures !Trips(e, p, cfg, q)
    decreases |q|
  {
    hide Wanted, Calm, PassStep, WorkingSet, Ready, Covered, Trips, Overtaken;
    if q == [] {
      NothingTrips(e, p, cfg);
    } else {
      var n := |q| - 1;
      var before := PassOver(e, p, cfg, Admitting, q[..n]);
      AdmitTruthGrows(before, p, cfg, q[n]);
      NeverTrips(e, p, cfg, q[..n]);
      AdmitPassKeepsWanted(e, p, cfg, q[..n]);
      WantedFits(before.c, cfg);
      hide PassOver;
      TripsLast(e, p, cfg, q);
      FittingIsNotOvertaken(before, p, cfg, q[n]);
    }
  }

  lemma NothingTrips(e: Engine, p: Case, cfg: Config)
    requires Ready(e.c, p)
    ensures !Trips(e, p, cfg, [])
  {
  }

  lemma WantedFits(c: Cache, cfg: Config)
    requires Wanted(c) && Covered(c.truth, cfg)
    ensures Bytes(c) <= cfg.capacity
  {
    SubsetSmaller(c.resident.Keys, WorkingSet(c.truth));
    hide WorkingSet;
  }

  lemma FittingIsNotOvertaken(e: Engine, p: Case, cfg: Config, ev: Event)
    requires Ready(e.c, p) && KnownNames(p, ev.kind) && Bytes(e.c) <= cfg.capacity
    ensures !Overtaken(e, p, cfg, ev)
  {
    hide Admits;
  }

  // ---------- enforcement ----------

  lemma {:induction false} NoteAdmissionsKeepsCalm(e: Engine, cfg: Config, ids: seq<Id>, now: real)
    requires Calm(e)
    ensures Calm(NoteAdmissions(e, cfg, ids, now))
  {
    hide Calm, Explained;
    if ids != [] {
      var before, s := NoteAdmissions(e, cfg, ids[..|ids| - 1], now), ids[|ids| - 1];
      NoteAdmissionsKeepsCalm(e, cfg, ids[..|ids| - 1], now);
      NoteKeepsCalm(before, cfg, now, NoteAdmitted, Some(s));
      NoteKeepsCalm(before, cfg, now, NoteSkipped, Some(s));
    }
  }

  lemma EnforceIdle(e: Engine, cfg: Config, now: real)
    requires e.c.resident.Keys <= e.c.truth.Keys && Regular(cfg.host) && cfg.policy == LifecycleB4 && Wanted(e.c)
    requires Calm(e)
    requires Covered(e.c.truth, cfg)
    ensures Enforce(e, cfg, now).c == e.c && Calm(Enforce(e, cfg, now))
  {
    SubsetSmaller(e.c.resident.Keys, WorkingSet(e.c.truth));
    SubsetSmaller(ActiveResidents(e.c), e.c.resident.Keys);
    hide Calm, WorkingSet, ActiveResidents;
    assert Shrunk(e, cfg, now) == Eviction(e, []);
    assert NoteAll(e, cfg, [], now, NoteEvicted) == e;
    NoteAdmissionsKeepsCalm(e, cfg, e.admitted, now);
  }

  // ---------- instants and runs ----------

  lemma CalmAtAdmission(e: Engine, p: Case, cfg: Config, batch: seq<Event>, now: real)
    requires Ready(e.c, p) && Configured(cfg) && cfg.policy == LifecycleB4 && Wanted(e.c) && Calm(e)
    requires forall i :: 0 <= i < |batch| ==> KnownNames(p, batch[i].kind)
    ensures var r := AtAdmission(e, p, cfg, batch, now); Wanted(r.c) && Calm(r)
  {
    WantedIsLive(e.c);
    hide Wanted, Calm, Live, Ready, PassOver, PolicyReleases, TtlExpiries, WorkingSet, BeforeEnforcement;
    PassKeepsLive(e, p, cfg, Invalidating, batch);
    var invalidated := PassOver(e, p, cfg, Invalidating, batch);
    PassKeepsLive(invalidated, p, cfg, Updating, batch);
    var updated := PassOver(invalidated, p, cfg, Updating, batch);
    ReleasesLeaveWanted(updated, p, cfg, now);
    ReleasedReady(updated, p, cfg, now);
    var released := TtlExpiries(PolicyReleases(updated, p, cfg, now), cfg, now);
    ReusePassKeepsWanted(released, p, cfg, batch);
    EmptiedCalm(PassOver(released, p, cfg, Reusing, batch));
  }

  lemma InstantStaysCalm(e: Engine, p: Case, cfg: Config, batch: seq<Event>, now: real)
    requires Ready(e.c, p) && Configured(cfg) && cfg.policy == LifecycleB4 && Wanted(e.c) && Calm(e)
    requires forall i :: 0 <= i < |batch| ==> KnownNames(p, batch[i].kind)
    requires Covered(Instant(e, p, cfg, batch, now).c.truth, cfg)
    ensures Wanted(Instant(e, p, cfg, batch, now).c) && Calm(Instant(e, p, cfg, batch, now))
    ensures !Trips(AtAdmission(e, p, cfg, batch, now), p, cfg, batch)
  {
    InstantTruth(e, p, cfg, batch, now);
    CalmAtAdmission(e, p, cfg, batch, now);
    hide Wanted, Calm, Ready, PassOver, Enforce, WorkingSet, Covered, AtAdmission, BeforeEnforcement, Trips;
    var ready := AtAdmission(e, p, cfg, batch, now);
    AdmitPassKeepsWanted(ready, p, cfg, batch);
    NeverTrips(ready, p, cfg, batch);
    var filled := BeforeEnforcement(e, p, cfg, batch, now);
    ReadyInside(filled.c, p);
    EnforceIdle(filled, cfg, now);
    NoteKeepsCalm(Enforce(filled, cfg, now), cfg, now, NoteCheckpoint, None);
  }

  lemma WantedIsLive(c: Cache)
    ensures Wanted(c) ==> Live(c)
  {
  }

  lemma EmptiedCalm(e: Engine)
    ensures Calm(e) ==> Calm(e.(admitted := []))
  {
  }

  ghost predicate CalmLoop(l: Loop) {
    Wanted(l.e.c) && Calm(l.e)
  }

  lemma AdvanceStaysCalm(l: Loop, p: Case, cfg: Config, times: seq<real>)
    requires Turn(l, p, cfg, times) && EventsKnown(p) && cfg.policy == LifecycleB4 && CalmLoop(l)
    requires l.k < |times| && l.e.c.truth == TruthAfter(p, times, l.k) && Largest(p, times, |times|) <= cfg.capacity
    ensures CalmLoop(Advance(l, p, cfg, times, times[l.k])) && !AdvanceTrips(l, p, cfg, times, times[l.k])
  {
    hide Covered, Largest, Instant, WorkingSet, TruthAfter, Wanted, Calm, Batch, Turn, WellFormedCase, EventsKnown,
        BeforeEnforcement, Upcoming, KnownNames, Ready, Regular, Events, Trips, AtAdmission;
    var now := times[l.k];
    TurnKnown(l, p, cfg, times);
    TurnConfigured(l, p, cfg, times);
    BatchKnown(p, times, l.k, now);
    ExternalCovered(l, p, cfg, times);
    InstantStaysCalm(l.e, p, cfg, Events(p, times, l.k, now), now);
  }

  lemma ExternalInstantTruth(l: Loop, p: Case, cfg: Config, times: seq<real>)
    requires Turn(l, p, cfg, times) && EventsKnown(p) && l.k < |times| && l.e.c.truth == TruthAfter(p, times, l.k)
    requires Ready(l.e.c, p) && Regular(cfg.host)
    requires forall i :: 0 <= i < |Events(p, times, l.k, times[l.k])| ==>
             KnownNames(p, Events(p, times, l.k, times[l.k])[i].kind)
    ensures Instant(l.e, p, cfg, Events(p, times, l.k, times[l.k]), times[l.k]).c.truth == TruthAfter(p, times, l.k + 1)
  {
    hide Instant, TruthAfter, Events, Turn, WellFormedCase, EventsKnown, Ready, KnownNames;
    AdvanceTruth(l, p, cfg, times, times[l.k]);
  }

  lemma ExternalCovered(l: Loop, p: Case, cfg: Config, times: seq<real>)
    requires Turn(l, p, cfg, times) && EventsKnown(p) && l.k < |times| && l.e.c.truth == TruthAfter(p, times, l.k)
    requires Ready(l.e.c, p) && Regular(cfg.host) && Largest(p, times, |times|) <= cfg.capacity
    requires forall i :: 0 <= i < |Events(p, times, l.k, times[l.k])| ==>
             KnownNames(p, Events(p, times, l.k, times[l.k])[i].kind)
    ensures Covered(Instant(l.e, p, cfg, Events(p, times, l.k, times[l.k]), times[l.k]).c.truth, cfg)
  {
    hide Covered, Largest, Instant, Events, Turn, WellFormedCase, EventsKnown, Ready, KnownNames, Regular, TruthAfter;
    ExternalInstantTruth(l, p, cfg, times);
    CapacityCovers(p, times, l.k + 1, cfg);
  }

  lemma CapacityCovers(p: Case, times: seq<real>, k: nat, cfg: Config)
    requires EventsKnown(p) && 1 <= k <= |times| && Largest(p, times, |times|) <= cfg.capacity
    ensures Covered(TruthAfter(p, times, k), cfg)
  {
    hide WorkingSet, TruthAfter, Largest;
    LargestIsReached(p, times, |times|);
    assert WantedAfter(p, times, k) <= cfg.capacity;
  }

  lemma TurnConfigured(l: Loop, p: Case, cfg: Config, times: seq<real>)
    requires Turn(l, p, cfg, times)
    ensures Configured(cfg)
  {
  }

  lemma {:induction false} RunStaysCalm(l: Loop, p: Case, cfg: Config, times: seq<real>)
    requires Turn(l, p, cfg, times) && EventsKnown(p) && cfg.policy == LifecycleB4 && CalmLoop(l)
    requires l.e.c.truth == TruthAfter(p, times, l.k) && Largest(p, times, |times|) <= cfg.capacity
    ensures CalmLoop(RunFrom(l, p, cfg, times)) && !RunTrips(l, p, cfg, times)
    decreases |times| - l.k, |l.e.c.resident.Keys|
  {
    hide Upcoming, Advance, CalmLoop, TruthAfter, Largest, EventsKnown, AdvanceTrips;
    var next := Upcoming(l.e, p, cfg, times, l.k, l.last);
    if next.Some? {
      AdvanceDecreases(l, p, cfg, times);
      EveryTurnIsExternal(l, p, cfg, times);
      AdvanceTruth(l, p, cfg, times, next.value);
      AdvanceStaysCalm(l, p, cfg, times);
      hide Turn;
      RunStaysCalm(Advance(l, p, cfg, times, next.value), p, cfg, times);
    }
  }

  /**
   With a capacity of at least the reference working set, LIFECYCLE_B4 finishes without raising, never evicts
   a State and never reports the program as infeasible; no assumption on how many ADMITs share an instant.
   */
  lemma ReferenceCapacitySuffices(p: Case, cfg: Config)
    requires WellFormedCase(p) && Configured(cfg) && cfg.policy == LifecycleB4
    requires EventsKnown(p) && ReferenceWorkingSet(p) <= cfg.capacity
    ensures Calm(RunProgram(p, cfg)) && !RunProgram(p, cfg).c.infeasible && !RunProgram(p, cfg).failed
  {
    RaisesExactlyWhenOvertaken(p, cfg);
    hide WellFormedCase, RunFrom, Clock, TruthAfter, Turn, CalmLoop, FirstTurn, EventsKnown, Finish, Calm, RunTrips,
        RunProgram;
    var times := ExternalTimes(p.events);
    FirstTurnClock(p, cfg);
    StartsCalm(p);
    RunStaysCalm(FirstTurn(p), p, cfg, times);
    FinishStaysCalm(Looped(p, cfg), p, cfg);
  }

  lemma StartsCalm(p: Case)
    ensures CalmLoop(FirstTurn(p)) && FirstTurn(p).e.c.truth == InitialTruth(p)
    ensures EventsKnown(p) ==>
            FirstTurn(p).e.c.truth == TruthAfter(p, ExternalTimes(p.events), 0) && FirstTurn(p).k == 0
  {
  }

  lemma FinishStaysCalm(l: Loop, p: Case, cfg: Config)
    requires Regular(cfg.host) && CalmLoop(l)
    ensures Calm(Finish(l, p, cfg))
  {
    var ids := SortedNames(l.e.c.resident.Keys, cfg.host);
    SortedNamesIndexed(l.e.c.resident.Keys, cfg.host);
    var checked := l.e.(failed := l.e.failed || l.k != |ExternalTimes(p.events)|);
    assert Calm(checked);
    ReleaseKeepsCalm(checked, cfg, ids, p.end, NoteProgramEnd);
    hide Calm;
    NoteKeepsCalm(ReleaseAll(checked, cfg, ids, p.end, NoteProgramEnd), cfg, p.end, NoteCheckpoint, None);
    hide SortedNames, ReleaseAll, Note;
  }

}
