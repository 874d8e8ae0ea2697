/** LRU inclusion over whole runs. */
module RetentionLruRuns {
  import opened Entities
  import opened Sorting
  import opened RetentionModel
  import opened RetentionRuns
  import opened RetentionSafety
  import opened RetentionTime
  import opened RetentionCapacity
  import opened RetentionTruth
  import opened RetentionInclusion
  import opened RetentionLate

  // ---------- what is produced ----------

  lemma PassStepKeepsProduced(e: Engine, p: Case, cfg: Config, pass: Pass, ev: Event)
    requires Ready(e.c, p) && KnownNames(p, ev.kind) && pass != Admitting && OnlyProduced(e.c)
    ensures OnlyProduced(PassStep(e, p, cfg, pass, ev).c)
    ensures forall s :: s in e.c.truth ==> PassStep(e, p, cfg, pass, ev).c.truth[s].produced == e.c.truth[s].produced
  {
    PassStepTruth(e, p, cfg, pass, ev);
    PassStepShrinks(e, p, cfg, pass, ev);
    hide PassStep;
  }

  lemma PassStepShrinks(e: Engine, p: Case, cfg: Config, pass: Pass, ev: Event)
    requires Ready(e.c, p) && KnownNames(p, ev.kind) && pass != Admitting
    ensures PassStep(e, p, cfg, pass, ev).c.resident.Keys <= e.c.resident.Keys
  {
    hide Note, DeriveLifecycle;
  }

  lemma {:induction false} PassKeepsProduced(e: Engine, p: Case, cfg: Config, pass: Pass, q: seq<Event>)
    requires Ready(e.c, p) && (forall i :: 0 <= i < |q| ==> KnownNames(p, q[i].kind)) && pass != Admitting
    requires OnlyProduced(e.c)
    ensures OnlyProduced(PassOver(e, p, cfg, pass, q).c)
    ensures forall s :: s in e.c.truth ==> PassOver(e, p, cfg, pass, q).c.truth[s].produced == e.c.truth[s].produced
  {
    hide OnlyProduced, PassStep;
    if q != [] {
      var n := |q| - 1;
      PassKeepsProduced(e, p, cfg, pass, q[..n]);
      PassStepKeepsProduced(PassOver(e, p, cfg, pass, q[..n]), p, cfg, pass, q[n]);
    }
  }

  /** Only an ADMIT event of the list produces a State. */
  lemma {:induction false} TruthOverProduces(t: TruthMap, q: seq<Event>, s: Id)
    requires (forall i :: 0 <= i < |q| ==> KnownStates(t.Keys, q[i].kind)) && s in t
    ensures TruthOver(t, q)[s].produced ==> t[s].produced || exists e :: e in q && e.kind == Admit(s)
  {
    if q != [] {
      var n := |q| - 1;
      TruthOverProduces(t, q[..n], s);
      assert q == q[..n] + [q[n]];
      assert q[n] in q;
    }
  }

  lemma {:induction false} ProducedByPast(p: Case, times: seq<real>, k: nat, s: Id)
    requires EventsKnown(p) && k <= |times| && s in p.states && TruthAfter(p, times, k)[s].produced
    ensures exists e :: e in p.events && e.kind == Admit(s) && e.time in times[..k]
  {
    hide TruthOver, KnownStates, EventsKnown;
    if k > 0 {
      BatchStates(p, times[k - 1]);
      TruthOverProduces(TruthAfter(p, times, k - 1), Batch(p, times[k - 1]), s);
      if TruthAfter(p, times, k - 1)[s].produced {
        ProducedByPast(p, times, k - 1, s);
        var e :| e in p.events && e.kind == Admit(s) && e.time in times[..k - 1];
        assert times[..k] == times[..k - 1] + [times[k - 1]];
      } else {
        var e :| e in Batch(p, times[k - 1]) && e.kind == Admit(s);
        assert e.time == times[k - 1] && times[k - 1] in times[..k];
      }
    }
  }

  /** The States an instant admits are unproduced when it starts, if each State has one ADMIT. */
  lemma BatchUnproduced(p: Case, times: seq<real>, k: nat)
    requires EventsKnown(p) && times == ExternalTimes(p.events) && k < |times| && OneAdmitPerState(p)
    ensures Unproduced(TruthAfter(p, times, k), Batch(p, times[k]))
  {
    var q, t := Batch(p, times[k]), TruthAfter(p, times, k);
    forall i | 0 <= i < |q| && q[i].kind.Admit? && q[i].kind.state in t ensures !t[q[i].kind.state].produced {
      assert q[i] in q;
      if t[q[i].kind.state].produced {
        ProducedByPast(p, times, k, q[i].kind.state);
        var e :| e in p.events && e.kind == Admit(q[i].kind.state) && e.time in times[..k];
        SamePlace(times, k, e.time);
      }
    }
  }

  lemma SamePlace(times: seq<real>, k: nat, t: real)
    requires Increasing(times) && k < |times| && t in times[..k]
    ensures t < times[k]
  {
    var j :| 0 <= j < k && times[..k][j] == t;
  }

  lemma BatchDistinctAdmits(p: Case, times: seq<real>, k: nat, now: real)
    requires WellFormedCase(p) && OneAdmitPerState(p)
    ensures DistinctAdmits(Events(p, times, k, now))
  {
    EventsDistinct(p, times, k, now);
    EventsAtNow(p, times, k, now);
    hide WellFormedCase, Events;
  }

  /** The ADMITs of an instant come in the order of their ordinals. */
  lemma EventsRising(p: Case, times: seq<real>, k: nat, now: real)
    requires WellFormedCase(p)
    ensures Rising(p, Events(p, times, k, now), now)
  {
    var q := Events(p, times, k, now);
    EventsAtNow(p, times, k, now);
    EventsDistinct(p, times, k, now);
    BatchSorted(p, times, k, now);
    forall i, j | 0 <= i < j < |q| && q[i].kind.Admit? && q[j].kind.Admit?
      ensures Occurrence(p, q[i]) < Occurrence(p, q[j])
    {
      InOrder(p, q[i], q[j]);
      OccurrenceGrows(p, q[i], q[j]);
    }
  }

  lemma InOrder(p: Case, d: Event, e: Event)
    requires WellFormedCase(p) && d in p.events && e in p.events && d != e && d.time == e.time && d.kind.Admit?
    requires e.kind.Admit? && EventLe(d, e)
    ensures Precedes(d, e)
  {
    var i :| 0 <= i < |p.events| && p.events[i] == d;
    var j :| 0 <= j < |p.events| && p.events[j] == e;
  }

  // ---------- one instant ----------

  lemma LruReleasesNothing(e: Engine, p: Case, cfg: Config, now: real)
    requires Regular(cfg.host) && cfg.policy == Lru
    ensures var r := TtlExpiries(PolicyReleases(e, p, cfg, now), cfg, now).c; r == e.c.(wasted := r.wasted)
  {
    hide PolicyReleases, TtlExpiries;
    var r := TtlExpiries(PolicyReleases(e, p, cfg, now), cfg, now).c;
    assert Releasable(e.c, p, cfg) == {};
    assert Expired(PolicyReleases(e, p, cfg, now).c, cfg, now) == {};
    assert r.resident == e.c.resident;
  }

  lemma SameIntervals(a: Cache, b: Cache, a': Cache, b': Cache, small: Config, large: Config)
    requires Included(a, b) && Near(a, b, small, large)
    requires a' == a.(wasted := a'.wasted) && b' == b.(wasted := b'.wasted)
    ensures Included(a', b') && Near(a', b', small, large)
  {
  }

  lemma EnforceIncluded(a: Engine, b: Engine, now: real, small: Config, large: Config)
    requires LruPair(small, large) && Included(a.c, b.c) && Near(a.c, b.c, small, large)
    requires a.c.resident.Keys <= a.c.truth.Keys && b.c.resident.Keys <= b.c.truth.Keys
    ensures Included(Enforce(a, small, now).c, Enforce(b, large, now).c)
    ensures Near(Enforce(a, small, now).c, Enforce(b, large, now).c, small, large)
  {
    EvictDownIncluded(a, b, now, small, large);
    EvictDownCounts(a, small, now);
    EvictDownCounts(b, large, now);
    MoreSlots(small, large);
    hide Slots, EvictDown, Included, Enforce;
    if Slots(small) == 0 {
      assert |EvictDown(a, small, now).e.c.resident| == 0;
    }
  }

  lemma EnforceKeepsProduced(e: Engine, cfg: Config, now: real)
    requires e.c.resident.Keys <= e.c.truth.Keys && Regular(cfg.host) && OnlyProduced(e.c)
    ensures OnlyProduced(Enforce(e, cfg, now).c)
  {
    hide Enforce, Shrunk;
  }

  /** What an instant needs to keep the two caches included. */
  ghost predicate Paired(a: Engine, b: Engine, p: Case, small: Config, large: Config) {
    && Included(a.c, b.c) && Near(a.c, b.c, small, large) && OnlyProduced(b.c) && Ready(a.c, p) && Ready(b.c, p)
  }

  lemma UpToReleases(a: Engine, b: Engine, p: Case, small: Config, large: Config, q: seq<Event>, now: real)
    requires LruPair(small, large) && Paired(a, b, p, small, large) && Configured(large) && InTime(b.c, large, now)
    requires forall i :: 0 <= i < |q| ==> KnownNames(p, q[i].kind) && q[i].time == now
    ensures var a' := PassOver(PassOver(a, p, small, Invalidating, q), p, small, Updating, q);
            var b' := PassOver(PassOver(b, p, large, Invalidating, q), p, large, Updating, q);
            && Paired(a', b', p, small, large) && InTime(b'.c, large, now)
            && forall s :: s in b.c.truth ==> s in b'.c.truth && b'.c.truth[s].produced == b.c.truth[s].produced
  {
    hide Included, Near, OnlyProduced, LruPair, InTime, PassOver;
    PassIncluded(a, b, p, Invalidating, q, now, small, large);
    PassInTime(b, p, large, Invalidating, q, now);
    PassKeepsProduced(b, p, large, Invalidating, q);
    var a1, b1 := PassOver(a, p, small, Invalidating, q), PassOver(b, p, large, Invalidating, q);
    PassIncluded(a1, b1, p, Updating, q, now, small, large);
    PassInTime(b1, p, large, Updating, q, now);
    PassKeepsProduced(b1, p, large, Updating, q);
    hide Ready;
  }

  lemma ReleasedPaired(a: Engine, b: Engine, p: Case, small: Config, large: Config, now: real)
    requires LruPair(small, large) && Paired(a, b, p, small, large) && InTime(b.c, large, now)
    ensures var a' := TtlExpiries(PolicyReleases(a, p, small, now), small, now);
            var b' := TtlExpiries(PolicyReleases(b, p, large, now), large, now);
            && Paired(a', b', p, small, large) && Settled(b'.c, large, now) && InTime(b'.c, large, now) &&
               b'.c.truth == b.c.truth
  {
    hide PolicyReleases, TtlExpiries;
    ExpiriesSettle(b, p, large, now);
    ReleasedReady(a, p, small, now);
    ReleasedReady(b, p, large, now);
    LruReleasesNothing(a, p, small, now);
    LruReleasesNothing(b, p, large, now);
    hide Ready;
    SameIntervals(a.c, b.c, TtlExpiries(PolicyReleases(a, p, small, now), small, now).c,
                  TtlExpiries(PolicyReleases(b, p, large, now), large, now).c, small, large);
    hide Included, Near;
  }

  lemma ReusedPaired(a: Engine, b: Engine, p: Case, small: Config, large: Config, q: seq<Event>, now: real)
    requires LruPair(small, large) && Paired(a, b, p, small, large) && Configured(large) && InTime(b.c, large, now)
    requires Settled(b.c, large, now)
    requires forall i :: 0 <= i < |q| ==> KnownNames(p, q[i].kind) && q[i].time == now
    ensures var a' := PassOver(a, p, small, Reusing, q).(admitted := []);
            var b' := PassOver(b, p, large, Reusing, q).(admitted := []);
            && Paired(a', b', p, small, large) && Settled(b'.c, large, now)
            && forall s :: s in b.c.truth ==> s in b'.c.truth && b'.c.truth[s].produced == b.c.truth[s].produced
  {
    hide Included, Near, OnlyProduced, LruPair, InTime, Settled, PassOver;
    PassIncluded(a, b, p, Reusing, q, now, small, large);
    PassInTime(b, p, large, Reusing, q, now);
    PassKeepsProduced(b, p, large, Reusing, q);
    hide Ready;
  }

  lemma FilledPaired(a: Engine, b: Engine, p: Case, small: Config, large: Config, q: seq<Event>, now: real)
    requires LruPair(small, large) && Paired(a, b, p, small, large) && Configured(large) && Settled(b.c, large, now)
    requires forall i :: 0 <= i < |q| ==> KnownNames(p, q[i].kind) && q[i].time == now
    requires Ready(a.c, p) && Ready(b.c, p) && !LateIn(a, b, p, small, large, q)
    ensures Paired(PassOver(a, p, small, Admitting, q), PassOver(b, p, large, Admitting, q), p, small, large)
  {
    hide Included, Near, OnlyProduced, LruPair, Settled, PassOver, LateIn;
    AdmitPassIncluded(a, b, p, q, |q|, now, small, large);
    assert q[..|q|] == q;
    AdmitPassProduces(b, p, large, q);
    hide Ready;
  }

  /** The two engines as the ADMITs of an instant find them. */
  lemma PairedAtAdmission(a: Engine, b: Engine, p: Case, small: Config, large: Config, q: seq<Event>, now: real)
    requires LruPair(small, large) && Paired(a, b, p, small, large) && Configured(small) && Configured(large)
    requires InTime(b.c, large, now)
    requires Ready(a.c, p) && Ready(b.c, p) && forall i :: 0 <= i < |q| ==> KnownNames(p, q[i].kind) && q[i].time == now
    ensures var a', b' := AtAdmission(a, p, small, q, now), AtAdmission(b, p, large, q, now);
            && Paired(a', b', p, small, large) && Settled(b'.c, large, now)
            && forall s :: s in b.c.truth ==> s in b'.c.truth && b'.c.truth[s].produced == b.c.truth[s].produced
  {
    hide LruPair, Paired, InTime, Settled, PassOver, PolicyReleases, TtlExpiries, Included, Near, OnlyProduced,
        BeforeEnforcement;
    UpToReleases(a, b, p, small, large, q, now);
    var a1 := PassOver(PassOver(a, p, small, Invalidating, q), p, small, Updating, q);
    var b1 := PassOver(PassOver(b, p, large, Invalidating, q), p, large, Updating, q);
    ReleasedPaired(a1, b1, p, small, large, now);
    var a2, b2 := TtlExpiries(PolicyReleases(a1, p, small, now), small, now),
        TtlExpiries(PolicyReleases(b1, p, large, now), large, now);
    ReusedPaired(a2, b2, p, small, large, q, now);
  }

  /** An instant with late ADMITs of which none lasts. */
  lemma LatePaired(a: Engine, b: Engine, p: Case, small: Config, large: Config, q: seq<Event>, now: real)
    requires LruPair(small, large) && Paired(a, b, p, small, large) && Knows(a, p, q) && Knows(b, p, q)
    requires Rising(p, q, now) && Older(b.c, p, q, now)
    requires LateIn(a, b, p, small, large, q) && !Lasting(a, b, p, small, large, q)
    ensures var a', b' := PassOver(a, p, small, Admitting, q), PassOver(b, p, large, Admitting, q);
            && Ready(a'.c, p) && Ready(b'.c, p)
            && a'.c.resident.Keys <= a'.c.truth.Keys && b'.c.resident.Keys <= b'.c.truth.Keys
            && Paired(Enforce(a', small, now), Enforce(b', large, now), p, small, large)
  {
    hide Included, Near, LateIn, Lasting, Rising, Older, PassOver, Enforce, OnlyProduced, Slots, LruPair, KnownNames;
    LateHasSlots(a, b, p, small, large, q);
    NoneLastsIncluded(a, b, p, small, large, q, now);
    AdmitPassProduces(b, p, large, q);
    var a', b' := PassOver(a, p, small, Admitting, q), PassOver(b, p, large, Admitting, q);
    ReadyInside(a'.c, p);
    ReadyInside(b'.c, p);
    EnforceKeepsProduced(b', large, now);
    hide Ready;
  }

  lemma LateHasSlots(a: Engine, b: Engine, p: Case, small: Config, large: Config, q: seq<Event>)
    requires Knows(a, p, q) && Knows(b, p, q) && LateIn(a, b, p, small, large, q)
    ensures Slots(small) > 0
  {
    hide PassOver, Slots;
  }

  lemma InstantIncluded(a: Engine, b: Engine, p: Case, small: Config, large: Config, q: seq<Event>, now: real)
    requires LruPair(small, large) && Paired(a, b, p, small, large) && Configured(small) && Configured(large)
    requires InTime(b.c, large, now) && Rising(p, q, now)
    requires Ready(a.c, p) && Ready(b.c, p) && forall i :: 0 <= i < |q| ==> KnownNames(p, q[i].kind) && q[i].time == now
    requires Older(AtAdmission(b, p, large, q, now).c, p, q, now)
    requires Knows(AtAdmission(a, p, small, q, now), p, q) && Knows(AtAdmission(b, p, large, q, now), p, q)
    requires !Lasting(AtAdmission(a, p, small, q, now), AtAdmission(b, p, large, q, now), p, small, large, q)
    ensures Paired(Instant(a, p, small, q, now), Instant(b, p, large, q, now), p, small, large)
  {
    hide LruPair, Paired, InTime, Settled, PassOver, AtAdmission, BeforeEnforcement, Enforce, LateIn, Ready, Lasting,
        Rising, Older, Knows;
    PairedAtAdmission(a, b, p, small, large, q, now);
    var a', b' := AtAdmission(a, p, small, q, now), AtAdmission(b, p, large, q, now);
    var a4, b4 := BeforeEnforcement(a, p, small, q, now), BeforeEnforcement(b, p, large, q, now);
    if LateIn(a', b', p, small, large, q) {
      LatePaired(a', b', p, small, large, q, now);
    } else {
      FilledPaired(a', b', p, small, large, q, now);
      EnforcedPaired(a4, b4, p, small, large, now);
    }
    ReadyInside(a4.c, p);
    ReadyInside(b4.c, p);
    Checkpointed(Enforce(a4, small, now), Enforce(b4, large, now), p, small, large, now);
  }

  lemma EnforcedPaired(a: Engine, b: Engine, p: Case, small: Config, large: Config, now: real)
    requires LruPair(small, large) && Paired(a, b, p, small, large)
    ensures Ready(a.c, p) && Ready(b.c, p)
    ensures Paired(Enforce(a, small, now), Enforce(b, large, now), p, small, large)
  {
    EnforceIncluded(a, b, now, small, large);
    EnforceKeepsProduced(b, large, now);
    hide Enforce, Included, Near, OnlyProduced;
  }

  lemma Checkpointed(a: Engine, b: Engine, p: Case, small: Config, large: Config, now: real)
    ensures Paired(a, b, p, small, large) ==>
              Paired(Note(a, small, now, NoteCheckpoint, None), Note(b, large, now, NoteCheckpoint, None), p, small,
                  large)
  {
  }

  // ---------- whole runs ----------

  /** A turn after n more external instants; under LRU there are no others. */
  ghost function AfterInstants(l: Loop, p: Case, cfg: Config, times: seq<real>, n: nat): (r: Loop)
    requires Turn(l, p, cfg, times) && l.k + n <= |times|
    ensures Turn(r, p, cfg, times) && r.k == l.k + n
  {
    if n == 0 then l else
      var before := AfterInstants(l, p, cfg, times, n - 1);
      Advance(before, p, cfg, times, times[before.k])
  }

  lemma LruNext(l: Loop, p: Case, cfg: Config, times: seq<real>)
    requires Turn(l, p, cfg, times) && cfg.policy == Lru
    ensures Upcoming(l.e, p, cfg, times, l.k, l.last) == NextExternal(times, l.k)
  {
    TimesWithin(p);
  }

  /** The loop of an LRU run is its external instants, one after the other. */
  lemma {:induction false} LruLoopIsInstants(l: Loop, p: Case, cfg: Config, times: seq<real>, n: nat)
    requires Turn(l, p, cfg, times) && cfg.policy == Lru && l.k + n <= |times|
    ensures RunFrom(AfterInstants(l, p, cfg, times, n), p, cfg, times) == AfterInstants(l, p, cfg, times, |times| - l.k)
    decreases |times| - n
  {
    hide Upcoming, Advance, Turn;
    var r := AfterInstants(l, p, cfg, times, n);
    LruNext(r, p, cfg, times);
    if l.k + n < |times| {
      LruLoopIsInstants(l, p, cfg, times, n + 1);
    }
  }

  /** A turn whose clock is right, whose truth is that of the reference and whose ordinals lie in the past. */
  ghost predicate Exact(l: Loop, p: Case, cfg: Config, times: seq<real>)
    requires EventsKnown(p)
  {
    && Clock(l, p, cfg, times) && l.k <= |times| && l.e.c.truth == TruthAfter(p, times, l.k)
    && AdmittedBy(l.e.c, p, l.last)
  }

  lemma AdvanceAdmittedBy(l: Loop, p: Case, cfg: Config, times: seq<real>)
    requires Turn(l, p, cfg, times) && Clock(l, p, cfg, times) && AdmittedBy(l.e.c, p, l.last) && cfg.policy == Lru
    requires l.k < |times|
    ensures var r := Advance(l, p, cfg, times, times[l.k]); AdmittedBy(r.e.c, p, r.last)
  {
    var now := times[l.k];
    LruNext(l, p, cfg, times);
    hide AdmittedBy, Upcoming;
    NothingDueEarlier(l, p, cfg, times, now);
    hide Clock;
    BatchKnown(p, times, l.k, now);
    EventsAtNow(p, times, l.k, now);
    InstantAdmittedBy(l.e, p, cfg, Events(p, times, l.k, now), l.last, now);
  }

  lemma ExactAdvance(l: Loop, p: Case, cfg: Config, times: seq<real>)
    requires Turn(l, p, cfg, times) && EventsKnown(p) && Exact(l, p, cfg, times) && cfg.policy == Lru && l.k < |times|
    ensures Exact(Advance(l, p, cfg, times, times[l.k]), p, cfg, times)
  {
    hide Clock, Turn, TruthAfter, Advance, Upcoming, EventsKnown, AdmittedBy;
    LruNext(l, p, cfg, times);
    AdvanceAdmittedBy(l, p, cfg, times);
    AdvanceKeepsClock(l, p, cfg, times, times[l.k]);
    AdvanceTruth(l, p, cfg, times, times[l.k]);
  }

  lemma StartPaired(p: Case, small: Config, large: Config)
    requires WellFormedCase(p) && small.capacity <= large.capacity
    ensures Paired(Start(p), Start(p), p, small, large)
  {
    MoreSlots(small, large);
  }

  /** The events of the next external instant. */
  function NextEvents(p: Case, times: seq<real>, k: nat): seq<Event>
    requires k < |times|
  {
    Events(p, times, k, times[k])
  }

  /** The engine as the ADMITs of the next external instant find it. */
  ghost function Facing(l: Loop, p: Case, cfg: Config, times: seq<real>): (r: Engine)
    requires Turn(l, p, cfg, times) && l.k < |times|
    ensures Knows(r, p, NextEvents(p, times, l.k))
  {
    BatchKnown(p, times, l.k, times[l.k]);
    AtAdmission(l.e, p, cfg, NextEvents(p, times, l.k), times[l.k])
  }

  /** At the next external instant some late ADMIT lasts. */
  ghost predicate LastingTurn(a: Loop, b: Loop, p: Case, small: Config, large: Config, times: seq<real>)
    requires Turn(a, p, small, times) && Turn(b, p, large, times) && a.k == b.k < |times|
  {
    Lasting(Facing(a, p, small, times), Facing(b, p, large, times), p, small, large, NextEvents(p, times, a.k))
  }

  /** Two turns of an LRU pair at the same external instant. */
  ghost predicate Twins(a: Loop, b: Loop, p: Case, small: Config, large: Config, times: seq<real>) {
    && LruPair(small, large) && Turn(a, p, small, times) && Turn(b, p, large, times) && a.k == b.k < |times|
    && EventsKnown(p) && Paired(a.e, b.e, p, small, large) && Exact(b, p, large, times)
  }

  lemma FacingPaired(a: Loop, b: Loop, p: Case, small: Config, large: Config, times: seq<real>)
    requires Twins(a, b, p, small, large, times)
    ensures var a', b', now := Facing(a, p, small, times), Facing(b, p, large, times), times[a.k];
            && Paired(a', b', p, small, large) && Settled(b'.c, large, now)
            && forall s :: s in b.e.c.truth ==> s in b'.c.truth && b'.c.truth[s].produced == b.e.c.truth[s].produced
  {
    var now := times[a.k];
    LruNext(b, p, large, times);
    hide Clock, Upcoming, Paired, AtAdmission, InTime, Settled, AdmittedBy, TruthAfter;
    NothingDueEarlier(b, p, large, times, now);
    BatchKnown(p, times, a.k, now);
    EventsAtNow(p, times, a.k, now);
    PairedAtAdmission(a.e, b.e, p, small, large, NextEvents(p, times, a.k), now);
  }

  lemma TwinsMean(a: Loop, b: Loop, p: Case, small: Config, large: Config, times: seq<real>)
    requires Twins(a, b, p, small, large, times)
    ensures WellFormedCase(p) && EventsKnown(p) && times == ExternalTimes(p.events) && large.policy == Lru
    ensures b.e.c.truth == TruthAfter(p, times, a.k) && AdmittedBy(b.e.c, p, b.last) && b.last < times[a.k]
  {
    hide Paired, TruthAfter, AdmittedBy, WellFormedCase, Upcoming;
    LruNext(b, p, large, times);
    NothingDueEarlier(b, p, large, times, times[a.k]);
  }

  /** A cache whose residents were admitted by an earlier time and touched by now. */
  lemma EarlierIsOlder(c: Cache, p: Case, q: seq<Event>, t: real, now: real)
    requires AdmittedBy(c, p, t) && t < now && forall s :: s in c.resident ==> c.resident[s].touched <= now
    requires forall i :: 0 <= i < |q| ==> q[i].time == now && q[i] in p.events
    ensures Older(c, p, q, now)
  {
    hide Occurrence;
  }

  lemma FacingOlder(a: Loop, b: Loop, p: Case, small: Config, large: Config, times: seq<real>)
    requires Twins(a, b, p, small, large, times)
    ensures Older(Facing(b, p, large, times).c, p, NextEvents(p, times, a.k), times[a.k])
    ensures Rising(p, NextEvents(p, times, a.k), times[a.k])
  {
    var q, now, b' := NextEvents(p, times, a.k), times[a.k], Facing(b, p, large, times);
    hide Paired, AtAdmission, TruthAfter, Rising, Older, WellFormedCase, Exact, Settled, AdmittedBy, KeepsOrdinals,
        Events;
    TwinsMean(a, b, p, small, large, times);
    FacingPaired(a, b, p, small, large, times);
    EventsRising(p, times, a.k, now);
    EventsAtNow(p, times, a.k, now);
    BatchKnown(p, times, b.k, now);
    AtAdmissionKeepsOrdinals(b.e, p, large, q, now);
    KeptAdmittedBy(b.e.c, b'.c, p, b.last);
    TouchedBefore(b'.c, large, now);
    EarlierIsOlder(b'.c, p, q, b.last, now);
  }

  lemma TouchedBefore(c: Cache, cfg: Config, now: real)
    requires Settled(c, cfg, now)
    ensures forall s :: s in c.resident ==> c.resident[s].touched <= now
  {
    forall s | s in c.resident ensures c.resident[s].touched <= now {
      assert Timely(c.resident[s], cfg, now);
    }
  }

  lemma AdvancePaired(a: Loop, b: Loop, p: Case, small: Config, large: Config, times: seq<real>)
    requires Twins(a, b, p, small, large, times) && !LastingTurn(a, b, p, small, large, times)
    ensures Paired(Advance(a, p, small, times, times[a.k]).e, Advance(b, p, large, times, times[a.k]).e, p, small,
            large)
  {
    var now := times[a.k];
    FacingOlder(a, b, p, small, large, times);
    LruNext(b, p, large, times);
    NothingDueEarlier(b, p, large, times, now);
    BatchKnown(p, times, a.k, now);
    EventsAtNow(p, times, a.k, now);
    hide Paired, LruPair, InTime, Instant, TruthAfter, WellFormedCase, Events, Clock, Upcoming, Lasting, AtAdmission,
        Rising, Older, AdmittedBy;
    InstantIncluded(a.e, b.e, p, small, large, NextEvents(p, times, a.k), now);
  }

  /** With one ADMIT per State no ADMIT is late. */
  lemma FirstAdmitsTurn(a: Loop, b: Loop, p: Case, small: Config, large: Config, times: seq<real>)
    requires Twins(a, b, p, small, large, times) && OneAdmitPerState(p)
    ensures !LastingTurn(a, b, p, small, large, times)
  {
    var q, a', b' := NextEvents(p, times, a.k), Facing(a, p, small, times), Facing(b, p, large, times);
    hide Facing, OneAdmitPerState, Unproduced, DistinctAdmits, TruthAfter, WellFormedCase, Events, Settled, Lasting,
        LateIn,
        AdmittedBy, Batch, Exact;
    TwinsMean(a, b, p, small, large, times);
    FacingPaired(a, b, p, small, large, times);
    hide Twins;
    NextUnproduced(p, times, a.k);
    BatchDistinctAdmits(p, times, a.k, times[a.k]);
    hide Paired;
    FirstAdmitsNeverLate(a', b', p, small, large, q);
    if Lasting(a', b', p, small, large, q) {
      LastingIsLate(a', b', p, small, large, q);
    }
  }

  lemma NextUnproduced(p: Case, times: seq<real>, k: nat)
    requires WellFormedCase(p) && EventsKnown(p) && times == ExternalTimes(p.events) && k < |times|
    requires OneAdmitPerState(p)
    ensures Unproduced(TruthAfter(p, times, k), NextEvents(p, times, k))
  {
    BatchUnproduced(p, times, k);
  }

  lemma LastingIsLate(a: Engine, b: Engine, p: Case, small: Config, large: Config, q: seq<Event>)
    requires Knows(a, p, q) && Knows(b, p, q) && Lasting(a, b, p, small, large, q)
    ensures LateIn(a, b, p, small, large, q)
  {
    hide Late, PassOver, Newer;
  }

  ghost predicate LruCase(p: Case, small: Config, large: Config) {
    WellFormedCase(p) && Configured(small) && Configured(large) && LruPair(small, large)
  }

  lemma FirstTurnsPaired(p: Case, small: Config, large: Config)
    requires LruCase(p, small, large)
    ensures var l, times := FirstTurn(p), ExternalTimes(p.events);
            && LruPair(small, large) && small.policy == Lru && large.policy == Lru
            && Turn(l, p, small, times) && Turn(l, p, large, times) && l.k == 0
            && EventsKnown(p) && Paired(l.e, l.e, p, small, large) && Exact(l, p, large, times)
  {
    FirstTurnClock(p, small);
    FirstTurnClock(p, large);
    StartPaired(p, small, large);
  }

  /** The run of a program after its first n external instants. */
  ghost function LruAfter(p: Case, cfg: Config, n: nat): (l: Loop)
    requires WellFormedCase(p) && Configured(cfg) && n <= |ExternalTimes(p.events)|
    ensures Turn(l, p, cfg, ExternalTimes(p.events)) && l.k == n
  {
    FirstTurnClock(p, cfg);
    AfterInstants(FirstTurn(p), p, cfg, ExternalTimes(p.events), n)
  }

  lemma LruAfterNext(p: Case, cfg: Config, n: nat)
    requires WellFormedCase(p) && Configured(cfg) && n < |ExternalTimes(p.events)|
    ensures var times := ExternalTimes(p.events);
            LruAfter(p, cfg, n + 1) == Advance(LruAfter(p, cfg, n), p, cfg, times, times[n])
  {
    hide WellFormedCase, Advance, Turn;
  }

  /** At the n-th external instant of the two runs some late ADMIT lasts. */
  ghost predicate LastingAt(p: Case, small: Config, large: Config, n: nat)
    requires LruCase(p, small, large) && n < |ExternalTimes(p.events)|
  {
    LastingTurn(LruAfter(p, small, n), LruAfter(p, large, n), p, small, large, ExternalTimes(p.events))
  }

  /** One instant in which no late ADMIT lasts keeps the pairing. */
  lemma PairedNext(p: Case, small: Config, large: Config, n: nat)
    requires LruCase(p, small, large) && n < |ExternalTimes(p.events)| && EventsKnown(p)
    requires !LastingAt(p, small, large, n)
    requires Paired(LruAfter(p, small, n).e, LruAfter(p, large, n).e, p, small, large)
    requires Exact(LruAfter(p, large, n), p, large, ExternalTimes(p.events))
    ensures Paired(LruAfter(p, small, n + 1).e, LruAfter(p, large, n + 1).e, p, small, large)
    ensures Exact(LruAfter(p, large, n + 1), p, large, ExternalTimes(p.events))
  {
    hide Advance, Paired, Exact, EventsKnown, WellFormedCase, Turn, LruAfter, LastingTurn;
    var times := ExternalTimes(p.events);
    LruAfterNext(p, small, n);
    LruAfterNext(p, large, n);
    AdvancePaired(LruAfter(p, small, n), LruAfter(p, large, n), p, small, large, times);
    ExactAdvance(LruAfter(p, large, n), p, large, times);
  }

  /** The pairing, kept along the instants of two runs as long as no late ADMIT lasts. */
  lemma {:induction false} PairedAfter(p: Case, small: Config, large: Config, n: nat)
    requires LruCase(p, small, large) && n <= |ExternalTimes(p.events)|
    requires forall i :: 0 <= i < n ==> !LastingAt(p, small, large, i)
    ensures EventsKnown(p) && Paired(LruAfter(p, small, n).e, LruAfter(p, large, n).e, p, small, large)
    ensures Exact(LruAfter(p, large, n), p, large, ExternalTimes(p.events))
  {
    hide Advance, Paired, Exact, EventsKnown, LruPair, WellFormedCase, Turn, LastingAt;
    if n == 0 {
      FirstTurnsPaired(p, small, large);
    } else {
      hide LruAfter;
      PairedAfter(p, small, large, n - 1);
      PairedNext(p, small, large, n - 1);
    }
  }

  /**
   LRU inclusion: as long as no late ADMIT lasts, the larger cache holds after every instant all the smaller
   one does, equally recent.
   */
  lemma LruInclusion(p: Case, small: Config, large: Config, n: nat)
    requires LruCase(p, small, large) && n <= |ExternalTimes(p.events)|
    requires forall i :: 0 <= i < n ==> !LastingAt(p, small, large, i)
    ensures InsideAt(p, small, large, n)
  {
    hide LruCase, LruAfter, LastingAt, Exact;
    PairedAfter(p, small, large, n);
  }

  /** After n external instants the smaller cache is inside the larger one. */
  ghost predicate InsideAt(p: Case, small: Config, large: Config, n: nat)
    requires LruCase(p, small, large) && n <= |ExternalTimes(p.events)|
  {
    Inside(LruAfter(p, small, n).e.c, LruAfter(p, large, n).e.c)
  }

  /** An instant in which a late ADMIT lasts ends with the inclusion broken. */
  lemma LastingInstant(a: Engine, b: Engine, p: Case, small: Config, large: Config, q: seq<Event>, now: real)
    requires LruPair(small, large) && Paired(a, b, p, small, large) && Rising(p, q, now)
    requires Ready(a.c, p) && Ready(b.c, p) && forall i :: 0 <= i < |q| ==> KnownNames(p, q[i].kind)
    requires Knows(AtAdmission(a, p, small, q, now), p, q) && Knows(AtAdmission(b, p, large, q, now), p, q)
    requires Older(AtAdmission(b, p, large, q, now).c, p, q, now)
    requires Paired(AtAdmission(a, p, small, q, now), AtAdmission(b, p, large, q, now), p, small, large)
    requires Lasting(AtAdmission(a, p, small, q, now), AtAdmission(b, p, large, q, now), p, small, large, q)
    ensures !Inside(Instant(a, p, small, q, now).c, Instant(b, p, large, q, now).c)
  {
    var a', b' := AtAdmission(a, p, small, q, now), AtAdmission(b, p, large, q, now);
    LastingIsLate(a', b', p, small, large, q);
    LateHasSlots(a', b', p, small, large, q);
    hide AtAdmission, Lasting, Rising, Older, Near, OnlyProduced, LateIn, Upto, PassOver, BeforeEnforcement, Enforce,
        EvictDown, Inside, Slots, Ready, KnownNames, Included;
    LastingSplits(a', b', p, small, large, q, now);
    UptoNothing(a', p, small, q);
    UptoNothing(b', p, large, q);
    var a4, b4 := BeforeEnforcement(a, p, small, q, now), BeforeEnforcement(b, p, large, q, now);
  }

  lemma LastingAdvance(a: Loop, b: Loop, p: Case, small: Config, large: Config, times: seq<real>)
    requires Twins(a, b, p, small, large, times) && LastingTurn(a, b, p, small, large, times)
    ensures !Inside(Advance(a, p, small, times, times[a.k]).e.c, Advance(b, p, large, times, times[a.k]).e.c)
  {
    var now := times[a.k];
    FacingOlder(a, b, p, small, large, times);
    FacingPaired(a, b, p, small, large, times);
    BatchKnown(p, times, a.k, now);
    hide Paired, LruPair, Instant, TruthAfter, WellFormedCase, Events, Clock, Lasting, AtAdmission, Rising, Older,
        AdmittedBy, Inside, Settled;
    LastingInstant(a.e, b.e, p, small, large, NextEvents(p, times, a.k), now);
  }

  /** The first late ADMIT that lasts ends the inclusion at its own instant. */
  lemma LastingBreaksInclusion(p: Case, small: Config, large: Config, n: nat)
    requires LruCase(p, small, large) && n < |ExternalTimes(p.events)|
    requires LastingAt(p, small, large, n) && forall i :: 0 <= i < n ==> !LastingAt(p, small, large, i)
    ensures !InsideAt(p, small, large, n + 1)
  {
    hide WellFormedCase, LruAfter, Advance, Turn, Paired, LastingTurn, Inside, Exact;
    PairedAfter(p, small, large, n);
    LruAfterNext(p, small, n);
    LruAfterNext(p, large, n);
    LastingAdvance(LruAfter(p, small, n), LruAfter(p, large, n), p, small, large, ExternalTimes(p.events));
  }

  lemma {:induction false} FirstLasting(p: Case, small: Config, large: Config, n: nat) returns (k: nat)
    requires LruCase(p, small, large) && n < |ExternalTimes(p.events)| && LastingAt(p, small, large, n)
    ensures k <= n && LastingAt(p, small, large, k) && forall i :: 0 <= i < k ==> !LastingAt(p, small, large, i)
  {
    hide LruCase, LastingAt;
    k := n;
    if j :| 0 <= j < n && LastingAt(p, small, large, j) {
      k := FirstLasting(p, small, large, j);
    }
  }

  /**
   LRU inclusion, exactly: the smaller cache is inside the larger one at every instant up to the n-th if and
   only if no late ADMIT before it lasts.
   */
  lemma InclusionIffNoneLasts(p: Case, small: Config, large: Config, n: nat)
    requires LruCase(p, small, large) && n <= |ExternalTimes(p.events)|
    ensures (forall m :: 0 <= m <= n ==> InsideAt(p, small, large, m)) <==> forall i :: 0 <= i < n ==>
            !LastingAt(p, small, large, i)
  {
    hide LruCase, LastingAt, LruAfter;
    if forall i :: 0 <= i < n ==> !LastingAt(p, small, large, i) {
      forall m | 0 <= m <= n ensures InsideAt(p, small, large, m) {
        LruInclusion(p, small, large, m);
      }
    } else {
      var j :| 0 <= j < n && LastingAt(p, small, large, j);
      var k := FirstLasting(p, small, large, j);
      LastingBreaksInclusion(p, small, large, k);
    }
  }

  /** In a program that admits each State once no ADMIT is late, so none lasts. */
  lemma {:induction false} OneAdmitNeverLasts(p: Case, small: Config, large: Config, n: nat)
    requires LruCase(p, small, large) && OneAdmitPerState(p) && n <= |ExternalTimes(p.events)|
    ensures forall i :: 0 <= i < n ==> !LastingAt(p, small, large, i)
  {
    hide OneAdmitPerState, WellFormedCase, LruAfter, LastingTurn, Turn, Exact, Paired;
    if n > 0 {
      OneAdmitNeverLasts(p, small, large, n - 1);
      PairedAfter(p, small, large, n - 1);
      FirstAdmitsTurn(LruAfter(p, small, n - 1), LruAfter(p, large, n - 1), p, small, large, ExternalTimes(p.events));
      assert !LastingAt(p, small, large, n - 1);
    }
  }

  /** The instants account for the whole run: the Program end classifies no reuse. */
  lemma LruRunCounts(p: Case, cfg: Config)
    requires WellFormedCase(p) && Configured(cfg) && cfg.policy == Lru
    ensures var c, r := LruAfter(p, cfg, |ExternalTimes(p.events)|).e.c, RunProgram(p, cfg).c;
            r.hits == c.hits && r.useful == c.useful && r.opportunities == c.opportunities
  {
    FirstTurnClock(p, cfg);
    hide WellFormedCase, Turn, Clock, Start, RunFrom, Advance, Finish;
    LruLoopIsInstants(FirstTurn(p), p, cfg, ExternalTimes(p.events), 0);
    FinishKeepsCounts(Looped(p, cfg), p, cfg);
  }

  lemma PairedCounts(a: Engine, b: Engine, p: Case, small: Config, large: Config)
    requires Paired(a, b, p, small, large)
    ensures a.c.hits <= b.c.hits && a.c.useful <= b.c.useful && a.c.opportunities == b.c.opportunities
  {
  }

  /** Unless a late ADMIT lasts, more capacity never costs an LRU run a reuse hit or a useful byte-second. */
  lemma LargerLruReusesMore(p: Case, small: Config, large: Config)
    requires LruCase(p, small, large)
    requires forall i :: 0 <= i < |ExternalTimes(p.events)| ==> !LastingAt(p, small, large, i)
    ensures RunProgram(p, small).c.hits <= RunProgram(p, large).c.hits
    ensures RunProgram(p, small).c.useful <= RunProgram(p, large).c.useful
    ensures RunProgram(p, small).c.opportunities == RunProgram(p, large).c.opportunities
  {
    hide Exact, LruAfter, RunProgram, WellFormedCase, Paired, LastingAt;
    LruRunCounts(p, small);
    LruRunCounts(p, large);
    PairedAfter(p, small, large, |ExternalTimes(p.events)|);
    PairedCounts(LruAfter(p, small, |ExternalTimes(p.events)|).e, LruAfter(p, large, |ExternalTimes(p.events)|).e, p,
        small, large);
  }

  lemma FinishKeepsCounts(l: Loop, p: Case, cfg: Config)
    requires Regular(cfg.host)
    ensures var r := Finish(l, p, cfg).c;
            r.hits == l.e.c.hits && r.useful == l.e.c.useful && r.opportunities == l.e.c.opportunities
  {
    SortedNamesIndexed(l.e.c.resident.Keys, cfg.host);
    hide SortedNames, ReleaseAll;
  }
}
