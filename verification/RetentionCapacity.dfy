/** Capacity over whole runs, and which States an enforcement keeps. */
module RetentionCapacity {
  import opened Entities
  import opened Sorting
  import opened RetentionModel
  import opened RetentionRuns
  import opened RetentionSafety
  import opened RetentionTime

  // ---------- no event list holds an event twice ----------

  lemma {:induction false} AtCounts(events: seq<Event>, t: real, e: Event)
    ensures multiset(At(events, t))[e] <= multiset(events)[e]
  {
    if events != [] {
      var n := |events| - 1;
      AtCounts(events[..n], t, e);
      assert events == events[..n] + [events[n]];
      assert multiset(events) == multiset(events[..n]) + multiset{events[n]};
    }
  }

  lemma {:induction false} DistinctCounts(events: seq<Event>, e: Event)
    requires forall i, j :: 0 <= i < j < |events| ==> events[i].id != events[j].id
    ensures multiset(events)[e] <= 1
  {
    if events != [] {
      var n := |events| - 1;
      DistinctCounts(events[..n], e);
      assert events == events[..n] + [events[n]];
      assert multiset(events) == multiset(events[..n]) + multiset{events[n]};
      assert forall i :: 0 <= i < n ==> events[..n][i].id != events[n].id;
      assert events[n] !in events[..n];
    }
  }

  lemma EventsDistinct(p: Case, times: seq<real>, k: nat, now: real)
    requires WellFormedCase(p)
    ensures var q := Events(p, times, k, now); forall i, j :: 0 <= i < j < |q| ==> q[i] != q[j]
  {
    var q := Events(p, times, k, now);
    forall i, j | 0 <= i < j < |q| ensures q[i] != q[j] {
      if q[i] == q[j] {
        Twice(q, i, j);
        SortPermutes(At(p.events, now), EventLe);
        AtCounts(p.events, now, q[i]);
        DistinctCounts(p.events, q[i]);
      }
    }
  }

  lemma BatchHasOneAdmit(p: Case, times: seq<real>, k: nat, now: real)
    requires WellFormedCase(p) && SingleAdmits(p)
    ensures var q := Events(p, times, k, now); forall i, j :: 0 <= i < j < |q| ==>
            !(q[i].kind.Admit? && q[j].kind.Admit?)
  {
    var q := Events(p, times, k, now);
    EventsAtNow(p, times, k, now);
    EventsDistinct(p, times, k, now);
    hide WellFormedCase, Events;
  }

  // ---------- an instant, and the whole run ----------

  /** Some ADMIT of the batch finds the cache over capacity and is skipped or refused. */
  ghost predicate Trips(e: Engine, p: Case, cfg: Config, q: seq<Event>)
    requires Ready(e.c, p) && forall i :: 0 <= i < |q| ==> KnownNames(p, q[i].kind)
  {
    exists i :: 0 <= i < |q| && Overtaken(PassOver(e, p, cfg, Admitting, q[..i]), p, cfg, q[i])
  }

  lemma TripsLast(e: Engine, p: Case, cfg: Config, q: seq<Event>)
    requires Ready(e.c, p) && q != [] && forall i :: 0 <= i < |q| ==> KnownNames(p, q[i].kind)
    ensures var n := |q| - 1;
            Trips(e, p, cfg, q) <==>
            Trips(e, p, cfg, q[..n]) || Overtaken(PassOver(e, p, cfg, Admitting, q[..n]), p, cfg, q[n])
  {
    hide Ready, Overtaken, PassOver;
    var n := |q| - 1;
    assert forall i :: 0 <= i < n ==> q[..n][i] == q[i] && q[..n][..i] == q[..i];
    if Trips(e, p, cfg, q[..n]) {
      var i :| 0 <= i < n && Overtaken(PassOver(e, p, cfg, Admitting, q[..n][..i]), p, cfg, q[..n][i]);
      assert Overtaken(PassOver(e, p, cfg, Admitting, q[..i]), p, cfg, q[i]);
    }
    if Trips(e, p, cfg, q) {
      var i :| 0 <= i < |q| && Overtaken(PassOver(e, p, cfg, Admitting, q[..i]), p, cfg, q[i]);
      assert i < n ==> Overtaken(PassOver(e, p, cfg, Admitting, q[..n][..i]), p, cfg, q[..n][i]);
    }
  }

  lemma {:induction false} AdmitPassRaisesIffTrips(e: Engine, p: Case, cfg: Config, q: seq<Event>, now: real)
    requires Ready(e.c, p) && Configured(cfg) && Good(e, cfg, now) && Repairable(e.c, cfg) && NoneMissed(e.c, now)
    requires forall i :: 0 <= i < |q| ==> KnownNames(p, q[i].kind) && q[i].time == now
    ensures var r := PassOver(e, p, cfg, Admitting, q);
            && (r.failed <==> Trips(e, p, cfg, q))
            && (!r.failed ==> Good(r, cfg, now) && Repairable(r.c, cfg) && NoneMissed(r.c, now))
  {
    hide Ready, Good, PassStep, NoneMissed, Repairable, Overtaken;
    if q == [] {
      GoodIsUnfailed(e, cfg, now);
    } else {
      hide Trips;
      var n := |q| - 1;
      AdmitPassRaisesIffTrips(e, p, cfg, q[..n], now);
      TripsLast(e, p, cfg, q);
      var before := PassOver(e, p, cfg, Admitting, q[..n]);
      if !before.failed {
        AdmissionRaisesIffOvertaken(before, p, cfg, q[n]);
      }
    }
  }

  lemma GoodIsUnfailed(e: Engine, cfg: Config, now: real)
    requires Good(e, cfg, now)
    ensures !e.failed && AuditFits(e, cfg)
  {
  }

  /** A cache within capacity is not overtaken by the first ADMIT of an instant. */
  lemma OneAdmitNeverTrips(e: Engine, p: Case, cfg: Config, q: seq<Event>)
    requires Ready(e.c, p) && Fits(e, cfg) && forall i :: 0 <= i < |q| ==> KnownNames(p, q[i].kind)
    requires forall i, j :: 0 <= i < j < |q| ==> !(q[i].kind.Admit? && q[j].kind.Admit?)
    ensures !Trips(e, p, cfg, q)
  {
    hide PassStep, Ready;
    forall i | 0 <= i < |q| && q[i].kind.Admit? ensures PassOver(e, p, cfg, Admitting, q[..i]) == e {
      AdmitPassIsOneStep(e, p, cfg, q[..i]);
    }
  }

  lemma FitsMeans(e: Engine, cfg: Config)
    ensures Fits(e, cfg) <==> Bytes(e.c) <= cfg.capacity
  {
  }

  lemma {:induction false} PassKeepsNoneEarlier(e: Engine, p: Case, cfg: Config, pass: Pass, q: seq<Event>, now: real)
    requires Ready(e.c, p) && (forall i :: 0 <= i < |q| ==> KnownNames(p, q[i].kind) && q[i].time == now)
    requires cfg.ttl > 0.0
    requires AllTimely(e.c, cfg, now)
    ensures NoneEarlier(e.c, now) ==> NoneEarlier(PassOver(e, p, cfg, pass, q).c, now)
    ensures NoneMissed(e.c, now) ==> NoneMissed(PassOver(e, p, cfg, pass, q).c, now)
  {
    hide Ready, PassOver;
    PassInTime(e, p, cfg, pass, q, now);
  }

  /** The engine as the ADMITs of an instant find it. */
  ghost function AtAdmission(e: Engine, p: Case, cfg: Config, batch: seq<Event>, now: real): (r: Engine)
    requires Ready(e.c, p) && Regular(cfg.host) && forall i :: 0 <= i < |batch| ==> KnownNames(p, batch[i].kind)
    ensures Ready(r.c, p) && BeforeEnforcement(e, p, cfg, batch, now) == PassOver(r, p, cfg, Admitting, batch)
  {
    var updated := PassOver(PassOver(e, p, cfg, Invalidating, batch), p, cfg, Updating, batch);
    PassOver(TtlExpiries(PolicyReleases(updated, p, cfg, now), cfg, now), p, cfg, Reusing, batch).(admitted := [])
  }

  lemma GoodAtAdmission(e: Engine, p: Case, cfg: Config, batch: seq<Event>, now: real)
    requires Ready(e.c, p) && Configured(cfg) && Good(e, cfg, now) && Fits(e, cfg) && NoneEarlier(e.c, now)
    requires forall i :: 0 <= i < |batch| ==> KnownNames(p, batch[i].kind) && batch[i].time == now
    ensures var r := AtAdmission(e, p, cfg, batch, now); Good(r, cfg, now) && Fits(r, cfg) && NoneMissed(r.c, now)
  {
    hide Good, Fits, Ready, NoneEarlier, NoneMissed, AllTimely, PassOver, PolicyReleases, TtlExpiries,
        BeforeEnforcement;
    GoodIsTimely(e, cfg, now);
    PassKeepsGood(e, p, cfg, Invalidating, batch, now);
    PassKeepsNoneEarlier(e, p, cfg, Invalidating, batch, now);
    var invalidated := PassOver(e, p, cfg, Invalidating, batch);
    GoodIsTimely(invalidated, cfg, now);
    PassKeepsGood(invalidated, p, cfg, Updating, batch, now);
    PassKeepsNoneEarlier(invalidated, p, cfg, Updating, batch, now);
    var updated := PassOver(invalidated, p, cfg, Updating, batch);
    ReleasesKeepGood(updated, p, cfg, now);
    ReleasedReady(updated, p, cfg, now);
    var released := TtlExpiries(PolicyReleases(updated, p, cfg, now), cfg, now);
    GoodIsTimely(released, cfg, now);
    PassKeepsGood(released, p, cfg, Reusing, batch, now);
    PassKeepsNoneEarlier(released, p, cfg, Reusing, batch, now);
    Emptied(PassOver(released, p, cfg, Reusing, batch), cfg, now);
  }

  /** An instant raises exactly when one of its ADMITs is overtaken, and otherwise ends within capacity. */
  lemma InstantRaisesIffTrips(e: Engine, p: Case, cfg: Config, batch: seq<Event>, now: real)
    requires Ready(e.c, p) && Configured(cfg) && Good(e, cfg, now) && Fits(e, cfg) && NoneEarlier(e.c, now)
    requires forall i :: 0 <= i < |batch| ==> KnownNames(p, batch[i].kind) && batch[i].time == now
    ensures var r := Instant(e, p, cfg, batch, now);
            && (r.failed <==> Trips(AtAdmission(e, p, cfg, batch, now), p, cfg, batch))
            && (!r.failed ==> Good(r, cfg, now) && Fits(r, cfg))
  {
    hide Good, Fits, Ready, NoneEarlier, NoneMissed, AtAdmission, PassOver, BeforeEnforcement, Enforce, Repairable,
        Trips;
    GoodAtAdmission(e, p, cfg, batch, now);
    var r := AtAdmission(e, p, cfg, batch, now);
    FitsMeans(r, cfg);
    FitsRepairable(r.c, cfg);
    AdmitPassRaisesIffTrips(r, p, cfg, batch, now);
    var filled := BeforeEnforcement(e, p, cfg, batch, now);
    ReadyInside(filled.c, p);
    if !filled.failed {
      EnforceKeepsGood(filled, cfg, now);
      NoteKeepsGood(Enforce(filled, cfg, now), cfg, now, NoteCheckpoint, None);
      NoteFits(Enforce(filled, cfg, now), cfg, now, NoteCheckpoint, None);
      GoodIsUnfailed(Instant(e, p, cfg, batch, now), cfg, now);
    }
  }

  lemma Emptied(e: Engine, cfg: Config, now: real)
    ensures Good(e, cfg, now) ==> Good(e.(admitted := []), cfg, now)
    ensures Fits(e, cfg) ==> Fits(e.(admitted := []), cfg)
  {
  }

  ghost predicate LoopGood(l: Loop, cfg: Config) {
    Good(l.e, cfg, l.last) && Fits(l.e, cfg)
  }

  /** At some instant of the loop an ADMIT is overtaken. */
  ghost predicate RunTrips(l: Loop, p: Case, cfg: Config, times: seq<real>)
    requires Turn(l, p, cfg, times)
    decreases |times| - l.k, |l.e.c.resident.Keys|
  {
    var next := Upcoming(l.e, p, cfg, times, l.k, l.last);
    next.Some? &&
      (AdvanceDecreases(l, p, cfg, times);
       AdvanceTrips(l, p, cfg, times, next.value) || RunTrips(Advance(l, p, cfg, times, next.value), p, cfg, times))
  }

  ghost predicate AdvanceTrips(l: Loop, p: Case, cfg: Config, times: seq<real>, now: real)
    requires Turn(l, p, cfg, times)
  {
    TurnReady(l, p, cfg, times);
    TurnOfCase(l, p, cfg, times);
    BatchKnown(p, times, l.k, now);
    var batch := Events(p, times, l.k, now);
    Trips(AtAdmission(l.e, p, cfg, batch, now), p, cfg, batch)
  }

  lemma AdvanceRaisesIffTrips(l: Loop, p: Case, cfg: Config, times: seq<real>, now: real)
    requires Turn(l, p, cfg, times) && Clock(l, p, cfg, times) && LoopGood(l, cfg)
    requires Upcoming(l.e, p, cfg, times, l.k, l.last) == Some(now)
    ensures Advance(l, p, cfg, times, now).e.failed <==> AdvanceTrips(l, p, cfg, times, now)
    ensures !Advance(l, p, cfg, times, now).e.failed ==> LoopGood(Advance(l, p, cfg, times, now), cfg)
  {
    NothingDueEarlier(l, p, cfg, times, now);
    BatchKnown(p, times, l.k, now);
    EventsAtNow(p, times, l.k, now);
    hide Instant, Clock, Upcoming, Trips, AtAdmission;
    InstantRaisesIffTrips(l.e, p, cfg, Events(p, times, l.k, now), now);
  }

  lemma {:induction false} RunRaisesIffTrips(l: Loop, p: Case, cfg: Config, times: seq<real>)
    requires Turn(l, p, cfg, times) && Clock(l, p, cfg, times) && LoopGood(l, cfg)
    ensures RunFrom(l, p, cfg, times).e.failed <==> RunTrips(l, p, cfg, times)
    ensures !RunTrips(l, p, cfg, times) ==> LoopGood(RunFrom(l, p, cfg, times), cfg)
    decreases |times| - l.k, |l.e.c.resident.Keys|
  {
    hide Turn, Clock, Upcoming, Advance, LoopGood, AdvanceTrips;
    var next := Upcoming(l.e, p, cfg, times, l.k, l.last);
    if next.Some? {
      AdvanceDecreases(l, p, cfg, times);
      AdvanceKeepsClock(l, p, cfg, times, next.value);
      AdvanceRaisesIffTrips(l, p, cfg, times, next.value);
      if !AdvanceTrips(l, p, cfg, times, next.value) {
        RunRaisesIffTrips(Advance(l, p, cfg, times, next.value), p, cfg, times);
      }
    } else {
      LoopGoodUnfailed(l, cfg);
    }
  }

  ghost predicate ProgramTrips(p: Case, cfg: Config)
    requires WellFormedCase(p) && Configured(cfg)
  {
    FirstTurnClock(p, cfg);
    RunTrips(FirstTurn(p), p, cfg, ExternalTimes(p.events))
  }

  lemma LoopGoodUnfailed(l: Loop, cfg: Config)
    requires LoopGood(l, cfg)
    ensures !l.e.failed
  {
  }

  /**
   When a run raises, for every program and policy: exactly when, after an ADMIT that overflowed the
   cache, a later ADMIT of the same instant is skipped or refused. Otherwise no audit record, nor the
   reported maximum, shows more resident bytes than the capacity.
   */
  lemma RaisesExactlyWhenOvertaken(p: Case, cfg: Config)
    requires WellFormedCase(p) && Configured(cfg)
    ensures RunProgram(p, cfg).failed <==> ProgramTrips(p, cfg)
    ensures !RunProgram(p, cfg).failed ==> AuditFits(RunProgram(p, cfg), cfg)
  {
    var times := ExternalTimes(p.events);
    FirstTurnClock(p, cfg);
    StartsGood(p, cfg);
    hide Turn, Clock, LoopGood, RunFrom, WellFormedCase, FirstTurn, Finish, RunTrips;
    RunRaisesIffTrips(FirstTurn(p), p, cfg, times);
    if !RunTrips(FirstTurn(p), p, cfg, times) {
      VisitedFrom(FirstTurn(p), p, cfg, times);
      FinishedGood(Looped(p, cfg), p, cfg, times);
    }
  }

  lemma {:induction false} SingleAdmitsNeverTrip(l: Loop, p: Case, cfg: Config, times: seq<real>)
    requires Turn(l, p, cfg, times) && Clock(l, p, cfg, times) && LoopGood(l, cfg) && SingleAdmits(p)
    ensures !RunTrips(l, p, cfg, times) && LoopGood(RunFrom(l, p, cfg, times), cfg)
    decreases |times| - l.k, |l.e.c.resident.Keys|
  {
    hide Turn, Clock, Upcoming, Advance, LoopGood, AdvanceTrips, SingleAdmits;
    var next := Upcoming(l.e, p, cfg, times, l.k, l.last);
    if next.Some? {
      AdvanceDecreases(l, p, cfg, times);
      AdvanceKeepsClock(l, p, cfg, times, next.value);
      AdvanceRaisesIffTrips(l, p, cfg, times, next.value);
      SingleAdmitsInstant(l, p, cfg, times, next.value);
      SingleAdmitsNeverTrip(Advance(l, p, cfg, times, next.value), p, cfg, times);
    }
  }

  lemma SingleAdmitsInstant(l: Loop, p: Case, cfg: Config, times: seq<real>, now: real)
    requires Turn(l, p, cfg, times) && Clock(l, p, cfg, times) && LoopGood(l, cfg) && SingleAdmits(p)
    requires Upcoming(l.e, p, cfg, times, l.k, l.last) == Some(now)
    ensures !AdvanceTrips(l, p, cfg, times, now)
  {
    NothingDueEarlier(l, p, cfg, times, now);
    BatchKnown(p, times, l.k, now);
    EventsAtNow(p, times, l.k, now);
    BatchHasOneAdmit(p, times, l.k, now);
    var batch := Events(p, times, l.k, now);
    hide Clock, Upcoming, Trips, AtAdmission;
    GoodAtAdmission(l.e, p, cfg, batch, now);
    OneAdmitNeverTrips(AtAdmission(l.e, p, cfg, batch, now), p, cfg, batch);
  }

  lemma AdvanceKeepsGood(l: Loop, p: Case, cfg: Config, times: seq<real>, now: real)
    requires Turn(l, p, cfg, times) && Clock(l, p, cfg, times) && SingleAdmits(p) && LoopGood(l, cfg)
    requires Upcoming(l.e, p, cfg, times, l.k, l.last) == Some(now)
    ensures LoopGood(Advance(l, p, cfg, times, now), cfg)
  {
    hide Turn, Clock, LoopGood, SingleAdmits, Upcoming, Advance, AdvanceTrips;
    SingleAdmitsInstant(l, p, cfg, times, now);
    AdvanceRaisesIffTrips(l, p, cfg, times, now);
  }

  /** With at most one ADMIT per instant no policy ever raises or overcommits. */
  lemma NeverOvercommits(p: Case, cfg: Config)
    requires WellFormedCase(p) && Configured(cfg) && SingleAdmits(p)
    ensures !RunProgram(p, cfg).failed && AuditFits(RunProgram(p, cfg), cfg)
  {
    FirstTurnClock(p, cfg);
    StartsGood(p, cfg);
    hide Turn, Clock, LoopGood, RunFrom, WellFormedCase, SingleAdmits, FirstTurn, RunTrips;
    SingleAdmitsNeverTrip(FirstTurn(p), p, cfg, ExternalTimes(p.events));
    RaisesExactlyWhenOvertaken(p, cfg);
  }

  lemma StartsGood(p: Case, cfg: Config)
    ensures LoopGood(FirstTurn(p), cfg)
  {
  }

  lemma FinishedGood(l: Loop, p: Case, cfg: Config, times: seq<real>)
    requires Configured(cfg) && LoopGood(l, cfg) && Clock(l, p, cfg, times) && l.k == |times|
    requires times == ExternalTimes(p.events)
    ensures !Finish(l, p, cfg).failed && AuditFits(Finish(l, p, cfg), cfg)
  {
    hide LoopGood, Finish;
    FinishKeepsGood(l, p, cfg, times);
  }

  lemma FinishKeepsGood(l: Loop, p: Case, cfg: Config, times: seq<real>)
    requires Configured(cfg) && LoopGood(l, cfg) && l.k == |ExternalTimes(p.events)| && l.last <= p.end
    ensures Good(Finish(l, p, cfg), cfg, p.end)
  {
    var ids := SortedNames(l.e.c.resident.Keys, cfg.host);
    SortedNamesIndexed(l.e.c.resident.Keys, cfg.host);
    LaterIsGood(l.e, cfg, l.last, p.end);
    hide Good, Fits, SortedNames;
    ReleaseKeepsGood(l.e, cfg, ids, p.end, NoteProgramEnd);
    NoteKeepsGood(ReleaseAll(l.e, cfg, ids, p.end, NoteProgramEnd), cfg, p.end, NoteCheckpoint, None);
    assert l.e.(failed := l.e.failed || l.k != |ExternalTimes(p.events)|) == l.e;
  }

  lemma LaterIsGood(e: Engine, cfg: Config, now: real, later: real)
    requires Good(e, cfg, now) && now <= later
    ensures Good(e, cfg, later)
  {
    forall s | s in e.c.resident ensures Timely(e.c.resident[s], cfg, later) {
      assert Timely(e.c.resident[s], cfg, now);
    }
  }

  // ---------- what an enforcement keeps ----------

  /** What was evicted and what survived, against the keys of the cache that was enforced. */
  ghost predicate KeepsLargest(before: Cache, cfg: Config, evicted: seq<Id>, survivors: set<Id>)
    requires before.resident.Keys <= before.truth.Keys
  {
    && Listed(evicted) + survivors == before.resident.Keys && Listed(evicted) !! survivors
    && forall v, u :: v in evicted && u in survivors ==>
       v in before.resident && u in before.resident && KeyLe(before, cfg, v, u)
  }

  lemma VictimBelowAll(c: Cache, cfg: Config, v: Id, u: Id)
    requires c.resident.Keys <= c.truth.Keys && IsVictim(c, cfg, v) && u in c.resident
    ensures v in c.resident && KeyLe(c, cfg, v, u)
  {
  }

  lemma EvictOneMore(c: Cache, next: Cache, cfg: Config, v: Id, evicted: seq<Id>, survivors: set<Id>)
    requires c.resident.Keys <= c.truth.Keys && IsVictim(c, cfg, v) && v in c.resident
    requires next.truth == c.truth && next.resident == c.resident - {v}
    requires KeepsLargest(next, cfg, evicted, survivors)
    ensures KeepsLargest(c, cfg, [v] + evicted, survivors)
  {
    hide KeyLe, IsVictim;
    assert next.resident.Keys == c.resident.Keys - {v};
    assert Listed([v] + evicted) == {v} + Listed(evicted);
    forall x, u | x in [v] + evicted && u in survivors
      ensures x in c.resident && u in c.resident && KeyLe(c, cfg, x, u)
    {
      VictimBelowAll(c, cfg, v, u);
      if x != v {
        assert x in evicted;
        KeyLeUnaffected(c, next, cfg, x, u);
      }
    }
  }

  /** Every enforcement keeps exactly the States with the largest keys, and evicts no more than it has to. */
  lemma {:induction false} SurvivorsHaveLargestKeys(e: Engine, cfg: Config, now: real)
    requires e.c.resident.Keys <= e.c.truth.Keys && Regular(cfg.host)
    ensures var r := EvictDown(e, cfg, now);
            && KeepsLargest(e.c, cfg, r.evicted, r.e.c.resident.Keys)
            && (r.evicted != [] ==> Bytes(r.e.c) + STATE_BYTES > cfg.capacity)
    decreases |e.c.resident|
  {
    hide KeyLe, IsVictim, KeepsLargest;
    if Bytes(e.c) > cfg.capacity && Candidates(e.c, cfg) != {} {
      var v := Victim(e.c, cfg);
      VictimBelowAll(e.c, cfg, v, v);
      var next := Drop(e, v, now);
      SurvivorsHaveLargestKeys(next, cfg, now);
      var rest := EvictDown(next, cfg, now);
      EvictOneMore(e.c, next.c, cfg, v, rest.evicted, rest.e.c.resident.Keys);
      OneFewer(e.c, v);
      if rest.evicted == [] {
        assert rest.e.c.resident == next.c.resident;
      }
    } else {
      NothingEvicted(e.c, cfg);
    }
  }

  lemma NothingEvicted(c: Cache, cfg: Config)
    requires c.resident.Keys <= c.truth.Keys
    ensures KeepsLargest(c, cfg, [], c.resident.Keys)
  {
  }

  lemma OneFewer(c: Cache, v: Id)
    requires v in c.resident
    ensures Bytes(c.(resident := c.resident - {v})) + STATE_BYTES == Bytes(c)
  {
    assert (c.resident - {v}).Keys == c.resident.Keys - {v};
  }

  lemma KeyLeUnaffected(c: Cache, d: Cache, cfg: Config, a: Id, b: Id)
    requires d.truth == c.truth && a in d.resident && b in d.resident && a in c.truth && b in c.truth
    requires a in c.resident && b in c.resident && d.resident[a] == c.resident[a] && d.resident[b] == c.resident[b]
    ensures KeyLe(c, cfg, a, b) == KeyLe(d, cfg, a, b)
  {
  }

  // ---------- an admitted State is always accounted for ----------

  lemma {:induction false} NoteAllExplains(e: Engine, cfg: Config, ids: seq<Id>, now: real, s: Id)
    requires s in ids
    ensures Explained(NoteAll(e, cfg, ids, now, NoteEvicted).audit, s, now)
  {
    var n := |ids| - 1;
    var before := NoteAll(e, cfg, ids[..n], now, NoteEvicted);
    var r := NoteAll(e, cfg, ids, now, NoteEvicted);
    assert ids == ids[..n] + [ids[n]];
    if s == ids[n] {
      assert r.audit[|r.audit| - 1] in r.audit;
    } else {
      NoteAllExplains(e, cfg, ids[..n], now, s);
      var x :| x in before.audit && x.time == now && x.state == Some(s) &&
          x.kind in {NoteSkipped, NoteInfeasible, NoteEvicted};
      assert x in r.audit;
    }
  }

  /**
   After an enforcement every State of the cache is still resident or has an eviction record of this
   instant, so the fallback record of an unexplained admission is never written.
   */
  lemma AdmissionsAreExplained(e: Engine, cfg: Config, now: real, s: Id)
    requires e.c.resident.Keys <= e.c.truth.Keys && Regular(cfg.host) && s in e.c.resident
    ensures var r := Shrunk(e, cfg, now);
            s in r.e.c.resident || Explained(NoteAll(r.e, cfg, r.evicted, now, NoteEvicted).audit, s, now)
  {
    hide EvictDown, KeyLe, Explained;
    var r := Shrunk(e, cfg, now);
    if cfg.policy != SessionPinning {
      var from := if cfg.policy == LifecycleB4 && ActiveBytes(e.c) > cfg.capacity then
          MarkInfeasible(e, cfg, now, None) else e;
      SurvivorsHaveLargestKeys(from, cfg, now);
      if s !in r.e.c.resident {
        assert s in Listed(r.evicted);
        NoteAllExplains(r.e, cfg, r.evicted, now, s);
      }
    }
  }
}
