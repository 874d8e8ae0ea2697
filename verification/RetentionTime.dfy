/**
 Time in the retention engine: the loop visits strictly increasing instants, handles every external
 event and meets every expiry at exactly its own time, under every policy and for every program.
 */
module RetentionTime {
  import opened Entities
  import opened Sorting
  import opened RetentionModel
  import opened RetentionRuns
  import opened RetentionSafety

  /** Every interval has started, no expiry lies behind `last`. */
  ghost predicate Settled(c: Cache, cfg: Config, last: real) {
    AllTimely(c, cfg, last) && NoneMissed(c, last)
  }

  ghost predicate InTime(c: Cache, cfg: Config, now: real) {
    AllTimely(c, cfg, now) && NoneEarlier(c, now)
  }

  // ---------- one step of a pass ----------

  /** `r` is what the State had, possibly touched at `now`, or a fresh admission at `now`. */
  predicate Continues(c: Cache, cfg: Config, now: real, s: Id, r: Resident) {
    || (s in c.resident && r == c.resident[s])
    || (s in c.resident && r == c.resident[s].(since := now, touched := now))
    || (r.since == r.touched == now && r.expiry == if cfg.policy == FixedTtl then Some(now + cfg.ttl) else None)
  }

  ghost predicate Stepped(c: Cache, c': Cache, cfg: Config, now: real) {
    forall s :: s in c'.resident ==> Continues(c, cfg, now, s, c'.resident[s])
  }

  lemma PassStepSteps(e: Engine, p: Case, cfg: Config, pass: Pass, ev: Event)
    requires Ready(e.c, p) && KnownNames(p, ev.kind)
    ensures Stepped(e.c, PassStep(e, p, cfg, pass, ev).c, cfg, ev.time)
  {
    hide Note, Judge, Occurrence, DeriveLifecycle, Cost;
    if ev.kind.Admit? {
      hide Continues, Admission;
      AdmissionSteps(e, p, cfg, ev);
    } else {
      hide Admission;
    }
  }

  lemma AdmissionSteps(e: Engine, p: Case, cfg: Config, ev: Event)
    requires Ready(e.c, p) && KnownNames(p, ev.kind) && ev.kind.Admit?
    ensures Stepped(e.c, Admission(e, p, cfg, ev).c, cfg, ev.time)
  {
    hide Note, Judge, Occurrence;
  }

  lemma SteppedInTime(c: Cache, c': Cache, cfg: Config, now: real)
    requires Stepped(c, c', cfg, now) && cfg.ttl > 0.0
    ensures InTime(c, cfg, now) ==> InTime(c', cfg, now)
    ensures Settled(c, cfg, now) ==> Settled(c', cfg, now)
  {
    if InTime(c, cfg, now) || Settled(c, cfg, now) {
      forall s | s in c'.resident && s in c.resident ensures Timely(c.resident[s], cfg, now) {
      }
    }
  }

  lemma PassStepInTime(e: Engine, p: Case, cfg: Config, pass: Pass, ev: Event)
    requires Ready(e.c, p) && KnownNames(p, ev.kind) && cfg.ttl > 0.0
    ensures var r := PassStep(e, p, cfg, pass, ev);
            && (InTime(e.c, cfg, ev.time) ==> InTime(r.c, cfg, ev.time))
            && (Settled(e.c, cfg, ev.time) ==> Settled(r.c, cfg, ev.time))
  {
    PassStepSteps(e, p, cfg, pass, ev);
    SteppedInTime(e.c, PassStep(e, p, cfg, pass, ev).c, cfg, ev.time);
  }

  lemma {:induction false} PassInTime(e: Engine, p: Case, cfg: Config, pass: Pass, q: seq<Event>, now: real)
    requires Ready(e.c, p) && (forall i :: 0 <= i < |q| ==> KnownNames(p, q[i].kind) && q[i].time == now)
    requires cfg.ttl > 0.0
    ensures var r := PassOver(e, p, cfg, pass, q);
            && (InTime(e.c, cfg, now) ==> InTime(r.c, cfg, now))
            && (Settled(e.c, cfg, now) ==> Settled(r.c, cfg, now))
  {
    hide InTime, Settled, Ready, PassStep;
    if q != [] {
      var n := |q| - 1;
      PassInTime(e, p, cfg, pass, q[..n], now);
      PassStepInTime(PassOver(e, p, cfg, pass, q[..n]), p, cfg, pass, q[n]);
    }
  }

  // ---------- an instant ----------

  /** Expiries leave the cache settled, and only States due at exactly `now` leave by them. */
  lemma ExpiriesSettle(e: Engine, p: Case, cfg: Config, now: real)
    requires Regular(cfg.host) && InTime(e.c, cfg, now)
    ensures var released := PolicyReleases(e, p, cfg, now);
            && Settled(TtlExpiries(released, cfg, now).c, cfg, now)
            && forall s :: s in Expired(released.c, cfg, now) ==> released.c.resident[s].expiry == Some(now)
  {
    hide PolicyReleases, TtlExpiries, Releasable;
    var released := PolicyReleases(e, p, cfg, now);
    var r := TtlExpiries(released, cfg, now);
    forall s | s in r.c.resident
      ensures Timely(r.c.resident[s], cfg, now) && (r.c.resident[s].expiry.Some? ==> r.c.resident[s].expiry.value > now)
    {
      assert Timely(e.c.resident[s], cfg, now);
      assert s !in Expired(released.c, cfg, now);
    }
  }

  lemma InstantSettles(e: Engine, p: Case, cfg: Config, batch: seq<Event>, now: real)
    requires Ready(e.c, p) && Configured(cfg) && InTime(e.c, cfg, now)
    requires forall i :: 0 <= i < |batch| ==> KnownNames(p, batch[i].kind) && batch[i].time == now
    ensures Settled(Instant(e, p, cfg, batch, now).c, cfg, now)
  {
    hide InTime, Ready, Settled, PassOver, PolicyReleases, TtlExpiries, Enforce;
    PassInTime(e, p, cfg, Invalidating, batch, now);
    var invalidated := PassOver(e, p, cfg, Invalidating, batch);
    PassInTime(invalidated, p, cfg, Updating, batch, now);
    var updated := PassOver(invalidated, p, cfg, Updating, batch);
    ExpiriesSettle(updated, p, cfg, now);
    ReleasedReady(updated, p, cfg, now);
    var released := TtlExpiries(PolicyReleases(updated, p, cfg, now), cfg, now);
    PassInTime(released, p, cfg, Reusing, batch, now);
    var reused := PassOver(released, p, cfg, Reusing, batch).(admitted := []);
    PassInTime(reused, p, cfg, Admitting, batch, now);
    var filled := PassOver(reused, p, cfg, Admitting, batch);
    EnforceSettles(filled, p, cfg, now);
    assert filled == BeforeEnforcement(e, p, cfg, batch, now);
  }

  lemma EnforceSettles(e: Engine, p: Case, cfg: Config, now: real)
    requires Ready(e.c, p) && Regular(cfg.host) && Settled(e.c, cfg, now)
    ensures Settled(Enforce(e, cfg, now).c, cfg, now)
  {
    hide Shrunk, Enforce;
    var r := Enforce(e, cfg, now);
    forall s | s in r.c.resident
      ensures Timely(r.c.resident[s], cfg, now) && (r.c.resident[s].expiry.Some? ==> r.c.resident[s].expiry.value > now)
    {
      assert r.c.resident[s] == e.c.resident[s];
    }
  }

  // ---------- the loop ----------

  ghost predicate Clock(l: Loop, p: Case, cfg: Config, times: seq<real>) {
    Settled(l.e.c, cfg, l.last) && l.last <= p.end && (l.k < |times| ==> l.last < times[l.k])
  }

  lemma FirstTurnClock(p: Case, cfg: Config)
    requires WellFormedCase(p) && Configured(cfg)
    ensures Turn(FirstTurn(p), p, cfg, ExternalTimes(p.events)) && Clock(FirstTurn(p), p, cfg, ExternalTimes(p.events))
  {
    var times := ExternalTimes(p.events);
    if |times| > 0 {
      assert times[0] in times;
    }
  }

  /** Nothing resident falls due before the next instant. */
  lemma NothingDueEarlier(l: Loop, p: Case, cfg: Config, times: seq<real>, now: real)
    requires Turn(l, p, cfg, times) && Clock(l, p, cfg, times) && Upcoming(l.e, p, cfg, times, l.k, l.last) == Some(now)
    ensures l.last < now <= p.end && InTime(l.e.c, cfg, now)
  {
    forall s | s in l.e.c.resident ensures Timely(l.e.c.resident[s], cfg, now) && (l.e.c.resident[s].expiry.Some? ==>
        l.e.c.resident[s].expiry.value >= now) {
      assert Timely(l.e.c.resident[s], cfg, l.last);
      if l.e.c.resident[s].expiry.Some? {
        assert Due(l.e.c, cfg, l.last, s);
      }
    }
  }

  lemma AdvanceKeepsClock(l: Loop, p: Case, cfg: Config, times: seq<real>, now: real)
    requires Turn(l, p, cfg, times) && Clock(l, p, cfg, times) && Upcoming(l.e, p, cfg, times, l.k, l.last) == Some(now)
    ensures l.last < now && Clock(Advance(l, p, cfg, times, now), p, cfg, times)
  {
    NothingDueEarlier(l, p, cfg, times, now);
    BatchKnown(p, times, l.k, now);
    EventsAtNow(p, times, l.k, now);
    InstantSettles(l.e, p, cfg, Events(p, times, l.k, now), now);
    NextTimeLater(l, p, cfg, times, now);
    hide Settled, InTime, Instant, Upcoming;
  }

  lemma NextTimeLater(l: Loop, p: Case, cfg: Config, times: seq<real>, now: real)
    requires Turn(l, p, cfg, times) && Upcoming(l.e, p, cfg, times, l.k, l.last) == Some(now)
    ensures var k := if NextExternal(times, l.k) == Some(now) then l.k + 1 else l.k; k < |times| ==> now < times[k]
  {
    forall i | 0 <= i < |times| ensures times[i] <= p.end {
      assert times[i] in times;
    }
  }

  lemma EventsAtNow(p: Case, times: seq<real>, k: nat, now: real)
    ensures forall i :: 0 <= i < |Events(p, times, k, now)| ==>
            Events(p, times, k, now)[i].time == now && Events(p, times, k, now)[i] in p.events
  {
    var q := Events(p, times, k, now);
    assert forall i :: 0 <= i < |q| ==> q[i] in q;
  }

  // ---------- the instants of a run ----------

  /** The instants visited from a turn on, in order. */
  ghost function Visited(l: Loop, p: Case, cfg: Config, times: seq<real>): seq<real>
    requires Turn(l, p, cfg, times)
    decreases |times| - l.k, |l.e.c.resident.Keys|
  {
    var next := Upcoming(l.e, p, cfg, times, l.k, l.last);
    if next.None? then [] else
      AdvanceDecreases(l, p, cfg, times);
      [next.value] + Visited(Advance(l, p, cfg, times, next.value), p, cfg, times)
  }

  ghost function Schedule(p: Case, cfg: Config): seq<real>
    requires WellFormedCase(p) && Configured(cfg)
  {
    Visited(FirstTurn(p), p, cfg, ExternalTimes(p.events))
  }

  lemma {:induction false} VisitedFrom(l: Loop, p: Case, cfg: Config, times: seq<real>)
    requires Turn(l, p, cfg, times) && Clock(l, p, cfg, times)
    ensures Increasing(Visited(l, p, cfg, times))
    ensures forall t :: t in Visited(l, p, cfg, times) ==> l.last < t <= p.end
    ensures forall i :: l.k <= i < |times| ==> times[i] in Visited(l, p, cfg, times)
    ensures Clock(RunFrom(l, p, cfg, times), p, cfg, times) && RunFrom(l, p, cfg, times).k == |times|
    decreases |times| - l.k, |l.e.c.resident.Keys|
  {
    hide Turn, Clock, Upcoming, Advance;
    var next := Upcoming(l.e, p, cfg, times, l.k, l.last);
    if next.None? {
      AllConsumed(l, p, cfg, times);
    } else {
      AdvanceDecreases(l, p, cfg, times);
      AdvanceKeepsClock(l, p, cfg, times, next.value);
      NothingDueEarlier(l, p, cfg, times, next.value);
      var after := Advance(l, p, cfg, times, next.value);
      VisitedFrom(after, p, cfg, times);
      forall i | l.k <= i < |times| ensures times[i] in Visited(l, p, cfg, times) {
        if i == l.k && after.k != l.k {
          assert times[i] == next.value;
        } else {
          assert times[i] in Visited(after, p, cfg, times);
        }
      }
      var rest := Visited(after, p, cfg, times);
      assert forall i :: 0 <= i < |rest| ==> rest[i] in rest;
    }
  }

  lemma AllConsumed(l: Loop, p: Case, cfg: Config, times: seq<real>)
    requires Turn(l, p, cfg, times) && Upcoming(l.e, p, cfg, times, l.k, l.last).None?
    ensures l.k == |times|
  {
    TimesWithin(p);
  }

  lemma TimesWithin(p: Case)
    requires WellFormedCase(p)
    ensures forall i :: 0 <= i < |ExternalTimes(p.events)| ==> p.start <= ExternalTimes(p.events)[i] <= p.end
  {
    var times := ExternalTimes(p.events);
    forall i | 0 <= i < |times| ensures p.start <= times[i] <= p.end {
      assert times[i] in times;
    }
  }

  /** What is still due when the loop ends is due after the Program. */
  lemma LateExpiries(p: Case, cfg: Config)
    requires WellFormedCase(p) && Configured(cfg)
    ensures forall s :: s in Looped(p, cfg).e.c.resident && Looped(p, cfg).e.c.resident[s].expiry.Some? ==>
              Looped(p, cfg).e.c.resident[s].expiry.value > p.end
  {
    FirstTurnClock(p, cfg);
    VisitedFrom(FirstTurn(p), p, cfg, ExternalTimes(p.events));
    hide Visited, RunFrom, FirstTurn, WellFormedCase;
    var l := Looped(p, cfg);
    forall s | s in l.e.c.resident && l.e.c.resident[s].expiry.Some? ensures l.e.c.resident[s].expiry.value > p.end {
      assert Timely(l.e.c.resident[s], cfg, l.last);
      assert Due(l.e.c, cfg, l.last, s);
    }
  }

  /**
   The loop terminates having visited strictly increasing instants up to the Program end, among them
   the time of every event; at its end no external instant is left and no resident State was due.
   */
  lemma EveryInstantVisited(p: Case, cfg: Config)
    requires WellFormedCase(p) && Configured(cfg)
    ensures Increasing(Schedule(p, cfg))
    ensures forall t :: t in Schedule(p, cfg) ==> p.start - 1.0 < t <= p.end
    ensures forall e :: e in p.events ==> e.time in Schedule(p, cfg)
    ensures Looped(p, cfg).k == |ExternalTimes(p.events)|
    ensures forall s :: s in Looped(p, cfg).e.c.resident && Looped(p, cfg).e.c.resident[s].expiry.Some? ==>
              Looped(p, cfg).e.c.resident[s].expiry.value > p.end
  {
    var times := ExternalTimes(p.events);
    FirstTurnClock(p, cfg);
    VisitedFrom(FirstTurn(p), p, cfg, times);
    forall e | e in p.events ensures e.time in Visited(FirstTurn(p), p, cfg, times) {
      assert e.time in times;
      var i :| 0 <= i < |times| && times[i] == e.time;
    }
    hide Visited, Increasing, WellFormedCase;
    LateExpiries(p, cfg);
  }

  /** A bare instant cannot occur under B4, so every turn is an external one. */
  lemma EveryTurnIsExternal(l: Loop, p: Case, cfg: Config, times: seq<real>)
    requires Turn(l, p, cfg, times) && cfg.policy == LifecycleB4 && Upcoming(l.e, p, cfg, times, l.k, l.last).Some?
    ensures l.k < |times| && Upcoming(l.e, p, cfg, times, l.k, l.last) == Some(times[l.k])
  {
  }
}
