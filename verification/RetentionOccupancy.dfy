/**
 Conservation of byte-seconds: what a run classifies as useful or wasted is exactly the integral of
 its resident bytes over the program.
 */
module RetentionOccupancy {
  import opened Entities
  import opened Sorting
  import opened RetentionModel
  import opened RetentionRuns
  import opened RetentionTime
  import opened RetentionCapacity

  type Residents = map<Id, Resident>

  /** The byte-seconds of all open intervals up to `t`. */
  ghost function Pending(m: Residents, t: real): real
    decreases |m|
  {
    if m == map[] then 0.0 else
      var s :| s in m;
      SmallerWithout(m, s);
      Cost(m[s], t) + Pending(m - {s}, t)
  }

  lemma SmallerWithout(m: Residents, s: Id)
    requires s in m
    ensures |m - {s}| == |m| - 1 && (m - {s}).Keys == m.Keys - {s}
  {
    assert (m - {s}).Keys == m.Keys - {s};
  }

  lemma {:induction false} PendingSplits(m: Residents, t: real, s: Id)
    requires s in m
    ensures Pending(m, t) == Cost(m[s], t) + Pending(m - {s}, t)
    decreases |m|
  {
    hide Cost;
    var x :| x in m && Pending(m, t) == Cost(m[x], t) + Pending(m - {x}, t);
    if x != s {
      SmallerWithout(m, x);
      SmallerWithout(m, s);
      PendingSplits(m - {x}, t, s);
      PendingSplits(m - {s}, t, x);
      assert m - {x} - {s} == m - {s} - {x};
    }
  }

  /** Replacing the entry of one State, or adding one. */
  lemma PendingUpdated(m: Residents, t: real, s: Id, r: Resident)
    ensures Pending(m[s := r], t) == Cost(r, t) + Pending(m - {s}, t)
  {
    hide Cost;
    PendingSplits(m[s := r], t, s);
    assert m[s := r] - {s} == m - {s};
  }

  ghost function Times(n: nat, d: real): real {
    n as real * d
  }

  ghost function Area(t: real, u: real): real {
    STATE_BYTES as real * (u - t)
  }

  lemma {:induction false} PendingGrows(m: Residents, t: real, u: real)
    ensures Pending(m, u) == Pending(m, t) + Times(|m|, Area(t, u))
    decreases |m|
  {
    hide Times, Area, Cost;
    if m == map[] {
      NoneHeld(Area(t, u));
    } else {
      var s :| s in m;
      SmallerWithout(m, s);
      PendingSplits(m, t, s);
      PendingSplits(m, u, s);
      PendingGrows(m - {s}, t, u);
      OneMore(|m - {s}|, Area(t, u));
      CostGrows(m[s], t, u);
    }
  }

  lemma NoneHeld(d: real)
    ensures Times(0, d) == 0.0
  {
  }

  lemma OneMore(n: nat, d: real)
    ensures Times(n + 1, d) == Times(n, d) + d
  {
  }

  lemma CostGrows(r: Resident, t: real, u: real)
    ensures Cost(r, u) == Cost(r, t) + Area(t, u)
  {
  }

  /** Everything classified so far plus everything still open. */
  ghost function Mass(c: Cache, t: real): real {
    c.useful + c.wasted + Pending(c.resident, t)
  }

  // ---------- nothing is lost within an instant ----------

  lemma DropKeepsMass(e: Engine, s: Id, now: real)
    requires s in e.c.resident
    ensures Mass(Drop(e, s, now).c, now) == Mass(e.c, now)
  {
    PendingSplits(e.c.resident, now, s);
  }

  lemma TouchKeepsMass(e: Engine, s: Id, now: real)
    requires s in e.c.resident
    ensures Mass(Touch(e, s, now).c, now) == Mass(e.c, now)
  {
    var r := e.c.resident[s].(since := now, touched := now);
    PendingSplits(e.c.resident, now, s);
    PendingUpdated(e.c.resident, now, s, r);
    assert Cost(r, now) == 0.0;
    hide Pending;
    assert Touch(e, s, now).c.resident == e.c.resident[s := r];
    assert Touch(e, s, now).c.useful == e.c.useful + Cost(e.c.resident[s], now);
  }

  lemma ArrivalKeepsMass(c: Cache, s: Id, r: Resident, now: real)
    requires s !in c.resident && r.since == now
    ensures Mass(c.(resident := c.resident[s := r]), now) == Mass(c, now)
  {
    PendingUpdated(c.resident, now, s, r);
    assert c.resident - {s} == c.resident;
  }

  lemma AdmissionKeepsMass(e: Engine, p: Case, cfg: Config, ev: Event)
    requires Ready(e.c, p) && KnownNames(p, ev.kind) && ev.kind.Admit?
    ensures Mass(Admission(e, p, cfg, ev).c, ev.time) == Mass(e.c, ev.time)
  {
    hide Judge, Occurrence, Note, Pending;
    var s := ev.kind.state;
    if s !in e.c.resident {
      ArrivalKeepsMass(e.c.(truth := e.c.truth[s := e.c.truth[s].(produced := true)]), s, NewResident(p, cfg, ev),
          ev.time);
    }
  }

  lemma PassStepKeepsMass(e: Engine, p: Case, cfg: Config, pass: Pass, ev: Event)
    requires Ready(e.c, p) && KnownNames(p, ev.kind)
    ensures Mass(PassStep(e, p, cfg, pass, ev).c, ev.time) == Mass(e.c, ev.time)
  {
    hide Judge, Occurrence, DeriveLifecycle, Note, Drop, Touch, Pending;
    match ev.kind
    case Invalidate(s) =>
      if pass == Invalidating && s in e.c.resident {
        DropKeepsMass(e.(c := e.c.(truth := e.c.truth[s := e.c.truth[s].(valid := false)])), s, ev.time);
      }
    case Reuse(s, valid) =>
      if pass == Reusing && valid && e.c.truth[s].valid && s in e.c.resident {
        TouchKeepsMass(e.(c := e.c.(opportunities := e.c.opportunities + 1, hits := e.c.hits + 1)), s, ev.time);
      }
    case Admit(s) =>
      hide Mass, Admission;
      AdmissionKeepsMass(e, p, cfg, ev);
    case _ =>
  }

  lemma {:induction false} PassKeepsMass(e: Engine, p: Case, cfg: Config, pass: Pass, q: seq<Event>, now: real)
    requires Ready(e.c, p) && (forall i :: 0 <= i < |q| ==> KnownNames(p, q[i].kind) && q[i].time == now)
    ensures Mass(PassOver(e, p, cfg, pass, q).c, now) == Mass(e.c, now)
  {
    hide Ready, PassStep, Mass;
    if q != [] {
      var n := |q| - 1;
      PassKeepsMass(e, p, cfg, pass, q[..n], now);
      PassStepKeepsMass(PassOver(e, p, cfg, pass, q[..n]), p, cfg, pass, q[n]);
    }
  }

  lemma {:induction false} ReleaseKeepsMass(e: Engine, cfg: Config, ids: seq<Id>, now: real, kind: AuditKind)
    requires (forall i :: 0 <= i < |ids| ==> ids[i] in e.c.resident) && forall i, j :: 0 <= i < j < |ids| ==>
             ids[i] != ids[j]
    ensures Mass(ReleaseAll(e, cfg, ids, now, kind).c, now) == Mass(e.c, now)
  {
    hide Mass, Drop, Note;
    if ids != [] {
      var n := |ids| - 1;
      ReleaseKeepsMass(e, cfg, ids[..n], now, kind);
      var before := ReleaseAll(e, cfg, ids[..n], now, kind);
      LastRemains(e.c.resident, ids);
      DropKeepsMass(before, ids[n], now);
    }
  }

  lemma ReleasesKeepMass(e: Engine, p: Case, cfg: Config, now: real)
    requires Regular(cfg.host)
    ensures Mass(TtlExpiries(PolicyReleases(e, p, cfg, now), cfg, now).c, now) == Mass(e.c, now)
  {
    hide Mass, ReleaseAll, SortedNames;
    SortedNamesIndexed(Releasable(e.c, p, cfg), cfg.host);
    ReleaseKeepsMass(e, cfg, SortedNames(Releasable(e.c, p, cfg), cfg.host), now, NoteReleased);
    var released := PolicyReleases(e, p, cfg, now);
    SortedNamesIndexed(Expired(released.c, cfg, now), cfg.host);
    ReleaseKeepsMass(released, cfg, SortedNames(Expired(released.c, cfg, now), cfg.host), now, NoteExpired);
  }

  lemma {:induction false} EvictDownKeepsMass(e: Engine, cfg: Config, now: real)
    requires e.c.resident.Keys <= e.c.truth.Keys && Regular(cfg.host)
    ensures Mass(EvictDown(e, cfg, now).e.c, now) == Mass(e.c, now)
    decreases |e.c.resident|
  {
    hide Mass, IsVictim;
    if Bytes(e.c) > cfg.capacity && Candidates(e.c, cfg) != {} {
      var v := Victim(e.c, cfg);
      DropKeepsMass(e, v, now);
      EvictDownKeepsMass(Drop(e, v, now), cfg, now);
    } else {
      Relabel(e.c, e.(failed := true).c, now);
    }
  }

  /** The mass depends on the intervals and totals only. */
  lemma Relabel(c: Cache, d: Cache, now: real)
    requires c.resident == d.resident && c.useful == d.useful && c.wasted == d.wasted
    ensures Mass(c, now) == Mass(d, now)
  {
  }

  lemma EnforceKeepsMass(e: Engine, cfg: Config, now: real)
    requires e.c.resident.Keys <= e.c.truth.Keys && Regular(cfg.host)
    ensures Mass(Enforce(e, cfg, now).c, now) == Mass(e.c, now)
  {
    hide Mass, EvictDown, Enforce;
    EvictDownKeepsMass(e, cfg, now);
    var marked := MarkInfeasible(e, cfg, now, None);
    Relabel(e.c, marked.c, now);
    EvictDownKeepsMass(marked, cfg, now);
  }

  lemma InstantKeepsMass(e: Engine, p: Case, cfg: Config, batch: seq<Event>, now: real)
    requires Ready(e.c, p) && Regular(cfg.host)
    requires forall i :: 0 <= i < |batch| ==> KnownNames(p, batch[i].kind) && batch[i].time == now
    ensures Mass(Instant(e, p, cfg, batch, now).c, now) == Mass(e.c, now)
  {
    hide Mass, Ready, PassOver, PolicyReleases, TtlExpiries, Enforce;
    PassKeepsMass(e, p, cfg, Invalidating, batch, now);
    var invalidated := PassOver(e, p, cfg, Invalidating, batch);
    PassKeepsMass(invalidated, p, cfg, Updating, batch, now);
    var updated := PassOver(invalidated, p, cfg, Updating, batch);
    ReleasesKeepMass(updated, p, cfg, now);
    ReleasedReady(updated, p, cfg, now);
    var released := TtlExpiries(PolicyReleases(updated, p, cfg, now), cfg, now);
    PassKeepsMass(released, p, cfg, Reusing, batch, now);
    var reused := PassOver(released, p, cfg, Reusing, batch).(admitted := []);
    PassKeepsMass(reused, p, cfg, Admitting, batch, now);
    var filled := BeforeEnforcement(e, p, cfg, batch, now);
    ReadyInside(filled.c, p);
    EnforceKeepsMass(filled, cfg, now);
  }

  // ---------- the integral ----------

  /** Resident bytes held from `t` to `u`. */
  ghost function Held(c: Cache, t: real, u: real): real {
    Times(|c.resident|, Area(t, u))
  }

  /** The integral of the resident bytes from a turn to the Program end, instant by instant. */
  ghost function Occupancy(l: Loop, p: Case, cfg: Config, times: seq<real>): real
    requires Turn(l, p, cfg, times)
    decreases |times| - l.k, |l.e.c.resident.Keys|
  {
    var next := Upcoming(l.e, p, cfg, times, l.k, l.last);
    if next.None? then Held(l.e.c, l.last, p.end) else
      AdvanceDecreases(l, p, cfg, times);
      Held(l.e.c, l.last, next.value) + Occupancy(Advance(l, p, cfg, times, next.value), p, cfg, times)
  }

  lemma MassGrows(c: Cache, t: real, u: real)
    ensures Mass(c, u) == Mass(c, t) + Held(c, t, u)
  {
    hide Pending, Times, Area;
    PendingGrows(c.resident, t, u);
  }

  lemma {:induction false} MassAtEnd(l: Loop, p: Case, cfg: Config, times: seq<real>)
    requires Turn(l, p, cfg, times)
    ensures Mass(RunFrom(l, p, cfg, times).e.c, p.end) == Mass(l.e.c, l.last) + Occupancy(l, p, cfg, times)
    decreases |times| - l.k, |l.e.c.resident.Keys|
  {
    hide Turn, Upcoming, Advance, Mass, Held;
    var next := Upcoming(l.e, p, cfg, times, l.k, l.last);
    if next.None? {
      MassGrows(l.e.c, l.last, p.end);
    } else {
      AdvanceDecreases(l, p, cfg, times);
      MassGrows(l.e.c, l.last, next.value);
      AdvanceKeepsMass(l, p, cfg, times, next.value);
      MassAtEnd(Advance(l, p, cfg, times, next.value), p, cfg, times);
    }
  }

  lemma AdvanceKeepsMass(l: Loop, p: Case, cfg: Config, times: seq<real>, now: real)
    requires Turn(l, p, cfg, times)
    ensures Mass(Advance(l, p, cfg, times, now).e.c, now) == Mass(l.e.c, now)
  {
    hide Instant, Mass;
    BatchKnown(p, times, l.k, now);
    EventsAtNow(p, times, l.k, now);
    hide Events, WellFormedCase;
    InstantKeepsMass(l.e, p, cfg, Events(p, times, l.k, now), now);
  }

  ghost function TotalOccupancy(p: Case, cfg: Config): real
    requires WellFormedCase(p) && Configured(cfg)
  {
    Occupancy(FirstTurn(p), p, cfg, ExternalTimes(p.events))
  }

  /** Useful plus wasted byte-seconds are the integral of the resident bytes over the program. */
  lemma ByteSecondsConserved(p: Case, cfg: Config)
    requires WellFormedCase(p) && Configured(cfg)
    ensures RunProgram(p, cfg).c.useful + RunProgram(p, cfg).c.wasted == TotalOccupancy(p, cfg)
  {
    assert Mass(FirstTurn(p).e.c, p.start - 1.0) == 0.0;
    MassAtEnd(FirstTurn(p), p, cfg, ExternalTimes(p.events));
    hide Occupancy, RunFrom, WellFormedCase;
    FinishClassifiesAll(Looped(p, cfg), p, cfg);
  }

  lemma FinishClassifiesAll(l: Loop, p: Case, cfg: Config)
    requires Regular(cfg.host)
    ensures Finish(l, p, cfg).c.useful + Finish(l, p, cfg).c.wasted == Mass(l.e.c, p.end)
  {
    var ids := SortedNames(l.e.c.resident.Keys, cfg.host);
    SortedNamesIndexed(l.e.c.resident.Keys, cfg.host);
    var checked := l.e.(failed := l.e.failed || l.k != |ExternalTimes(p.events)|);
    ReleaseKeepsMass(checked, cfg, ids, p.end, NoteProgramEnd);
    var released := ReleaseAll(checked, cfg, ids, p.end, NoteProgramEnd);
    assert released.c.resident.Keys == {};
    assert released.c.resident == map[];
  }

  // ---------- the bound ----------

  lemma HeldFits(c: Cache, cfg: Config, t: real, u: real)
    requires Bytes(c) <= cfg.capacity && t <= u
    ensures Held(c, t, u) <= Budget(cfg, u - t)
  {
    var n, s, d := |c.resident|, STATE_BYTES, u - t;
    assert n as real * (s as real * d) == (n * s) as real * d;
  }

  /** What the capacity could hold for a duration. */
  ghost function Budget(cfg: Config, d: real): real {
    cfg.capacity as real * d
  }

  lemma BudgetSpans(cfg: Config, d: real, e: real)
    ensures Budget(cfg, d) + Budget(cfg, e) == Budget(cfg, d + e)
  {
  }

  lemma BudgetUp(cfg: Config, d: real, e: real)
    requires d <= e
    ensures Budget(cfg, d) <= Budget(cfg, e) && Budget(cfg, 0.0) == 0.0
  {
  }

  lemma {:induction false} OccupancyBounded(l: Loop, p: Case, cfg: Config, times: seq<real>)
    requires Turn(l, p, cfg, times) && Clock(l, p, cfg, times) && LoopGood(l, cfg) && !RunTrips(l, p, cfg, times)
    ensures Occupancy(l, p, cfg, times) <= Budget(cfg, p.end - l.last)
    decreases |times| - l.k, |l.e.c.resident.Keys|
  {
    hide Turn, Upcoming, Advance, Held, Clock, LoopGood, Budget, AdvanceTrips;
    LoopFits(l, p, cfg, times);
    var next := Upcoming(l.e, p, cfg, times, l.k, l.last);
    if next.None? {
      HeldFits(l.e.c, cfg, l.last, p.end);
    } else {
      AdvanceDecreases(l, p, cfg, times);
      AdvanceKeepsClock(l, p, cfg, times, next.value);
      AdvanceRaisesIffTrips(l, p, cfg, times, next.value);
      HeldFits(l.e.c, cfg, l.last, next.value);
      OccupancyBounded(Advance(l, p, cfg, times, next.value), p, cfg, times);
      BudgetSpans(cfg, next.value - l.last, p.end - next.value);
    }
  }

  lemma LoopFits(l: Loop, p: Case, cfg: Config, times: seq<real>)
    requires Clock(l, p, cfg, times) && LoopGood(l, cfg)
    ensures Bytes(l.e.c) <= cfg.capacity && l.last <= p.end
  {
  }

  /** The first instant is not before the Program start. */
  lemma FirstInterval(p: Case, cfg: Config, next: real)
    requires WellFormedCase(p) && Configured(cfg)
    requires Upcoming(FirstTurn(p).e, p, cfg, ExternalTimes(p.events), 0, p.start - 1.0) == Some(next)
    ensures p.start <= next <= p.end
  {
    TimesWithin(p);
  }

  /** A turn that holds nothing yet is bounded from its first instant on. */
  lemma OccupancyAfterFirst(l: Loop, p: Case, cfg: Config, times: seq<real>)
    requires Turn(l, p, cfg, times) && Clock(l, p, cfg, times) && LoopGood(l, cfg) && !RunTrips(l, p, cfg, times)
    requires forall next :: Upcoming(l.e, p, cfg, times, l.k, l.last) == Some(next) ==> p.start <= next <= p.end
    requires l.e.c.resident == map[]
    ensures Occupancy(l, p, cfg, times) <= Budget(cfg, p.end - p.start)
  {
    hide Turn, Upcoming, Advance, Clock, LoopGood, Budget, AdvanceTrips;
    TurnIs(l, p, cfg, times);
    BudgetUp(cfg, 0.0, p.end - p.start);
    var next := Upcoming(l.e, p, cfg, times, l.k, l.last);
    NoneHeld(Area(l.last, if next.Some? then next.value else p.end));
    hide Times, Area;
    if next.Some? {
      AdvanceDecreases(l, p, cfg, times);
      AdvanceKeepsClock(l, p, cfg, times, next.value);
      AdvanceRaisesIffTrips(l, p, cfg, times, next.value);
      OccupancyBounded(Advance(l, p, cfg, times, next.value), p, cfg, times);
      BudgetUp(cfg, p.end - next.value, p.end - p.start);
    }
  }

  lemma TurnIs(l: Loop, p: Case, cfg: Config, times: seq<real>)
    requires Turn(l, p, cfg, times)
    ensures p.start <= p.end && Configured(cfg)
  {
  }

  lemma UntrippedStart(p: Case, cfg: Config)
    requires WellFormedCase(p) && Configured(cfg) && !RunProgram(p, cfg).failed
    ensures var l, times := FirstTurn(p), ExternalTimes(p.events);
            Turn(l, p, cfg, times) && Clock(l, p, cfg, times) && LoopGood(l, cfg) && !RunTrips(l, p, cfg, times)
  {
    hide WellFormedCase, RunProgram, LoopGood, Turn, Clock, FirstTurn, RunTrips;
    FirstTurnClock(p, cfg);
    StartsGood(p, cfg);
    RaisesExactlyWhenOvertaken(p, cfg);
  }

  lemma StartIsEmpty(p: Case)
    ensures FirstTurn(p).e.c.resident == map[] && FirstTurn(p).k == 0 && FirstTurn(p).last == p.start - 1.0
  {
  }

  /** A run that does not raise never classifies more than capacity times duration. */
  lemma ByteSecondsBounded(p: Case, cfg: Config)
    requires WellFormedCase(p) && Configured(cfg) && !RunProgram(p, cfg).failed
    ensures RunProgram(p, cfg).c.useful + RunProgram(p, cfg).c.wasted <= Budget(cfg, p.end - p.start)
  {
    hide WellFormedCase, RunProgram, Occupancy, Upcoming, LoopGood, Turn, Clock, FirstTurn, Budget, RunTrips;
    UntrippedStart(p, cfg);
    StartIsEmpty(p);
    forall next | Upcoming(FirstTurn(p).e, p, cfg, ExternalTimes(p.events), 0, p.start - 1.0) == Some(next)
      ensures p.start <= next <= p.end
    {
      FirstInterval(p, cfg, next);
    }
    ByteSecondsConserved(p, cfg);
    OccupancyAfterFirst(FirstTurn(p), p, cfg, ExternalTimes(p.events));
  }
}
