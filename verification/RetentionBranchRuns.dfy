/** The branch workload over whole runs: the bound for every policy, and LIFECYCLE_B4 meeting it. */
module RetentionBranchRuns {
  import opened Entities
  import opened Sorting
  import opened RetentionModel
  import opened RetentionRuns
  import opened RetentionSafety
  import opened RetentionTime
  import opened RetentionCapacity
  import opened RetentionTruth
  import opened RetentionInclusion
  import opened RetentionLruRuns
  import opened RetentionBranch

  // ---------- the bound ----------

  lemma {:induction false} PassShrinks(e: Engine, p: Case, cfg: Config, pass: Pass, q: seq<Event>)
    requires Ready(e.c, p) && (forall i :: 0 <= i < |q| ==> KnownNames(p, q[i].kind)) && pass != Admitting
    ensures PassOver(e, p, cfg, pass, q).c.resident.Keys <= e.c.resident.Keys
  {
    hide PassStep, Ready;
    if q != [] {
      PassShrinks(e, p, cfg, pass, q[..|q| - 1]);
      PassStepShrinks(PassOver(e, p, cfg, pass, q[..|q| - 1]), p, cfg, pass, q[|q| - 1]);
    }
  }

  lemma AtReuseShrinks(e: Engine, p: Case, cfg: Config, q: seq<Event>, now: real)
    requires Ready(e.c, p) && Regular(cfg.host) && forall i :: 0 <= i < |q| ==> KnownNames(p, q[i].kind)
    ensures AtReuse(e, p, cfg, q, now).c.resident.Keys <= e.c.resident.Keys
  {
    hide PassOver, PolicyReleases, TtlExpiries;
    PassShrinks(e, p, cfg, Invalidating, q);
    PassShrinks(PassOver(e, p, cfg, Invalidating, q), p, cfg, Updating, q);
  }

  lemma CommonBound(w: set<Id>, r: set<Id>, all: set<Id>, cfg: Config)
    requires r <= all && |all| * STATE_BYTES <= cfg.capacity
    ensures |w * r| <= |w| && |w * r| <= Slots(cfg)
  {
    SubsetSmaller(w * r, w);
    SubsetSmaller(w * r, r);
    SubsetSmaller(r, all);
    FitsBySlots(|all|, cfg);
  }

  /** What a branch instant finds: its events, all known, of the branch shape and of one time. */
  ghost predicate BranchBatch(p: Case, resolution: real, q: seq<Event>, now: real) {
    && (forall i :: 0 <= i < |q| ==> KnownNames(p, q[i].kind) && BranchEvent(p, resolution, q[i]) && q[i].time == now)
    && DistinctReuses(q) && (now == resolution ==> ReuseStates(q) <= WaitingStates(p))
  }

  lemma EventsAreBranch(p: Case, resolution: real, times: seq<real>, k: nat, now: real)
    requires BranchCase(p, resolution)
    ensures BranchBatch(p, resolution, Events(p, times, k, now), now)
  {
    hide WellFormedCase, SingleAdmits, OneAdmitPerState, BranchEvent, ResolvedAt, ReusedAt, Batch, KnownNames,
        DeriveLifecycle, WaitingStates;
    BatchKnown(p, times, k, now);
    BatchDistinctReuses(p, resolution, now);
    BatchIsBranch(p, resolution, now);
    ResolutionReuses(p, resolution);
  }

  lemma InstantGains(e: Engine, p: Case, resolution: real, cfg: Config, q: seq<Event>, now: real)
    requires Ready(e.c, p) && Regular(cfg.host) && BranchBatch(p, resolution, q, now) && EverythingValid(e.c.truth)
    requires forall i :: 0 <= i < |q| ==> KnownNames(p, q[i].kind)
    requires Bytes(e.c) <= cfg.capacity
    ensures now != resolution ==> Instant(e, p, cfg, q, now).c.hits == e.c.hits
    ensures Instant(e, p, cfg, q, now).c.hits <= e.c.hits + Achievable(p, cfg)
  {
    hide Instant, AtReuse, Ready, EverythingValid;
    assert forall i :: 0 <= i < |q| ==> BranchEvent(p, resolution, q[i]);
    AtReuseValid(e, p, cfg, q, now);
    InstantHits(e, p, cfg, q, now);
    AtReuseShrinks(e, p, cfg, q, now);
    var r := AtReuse(e, p, cfg, q, now).c.resident.Keys;
    if now == resolution {
      CommonBound(ReuseStates(q), r, e.c.resident.Keys, cfg);
      SubsetSmaller(ReuseStates(q), WaitingStates(p));
    } else {
      NoReuses(q);
      assert |ReuseStates(q) * r| == 0;
    }
  }

  /** Everything the loop of a branch run keeps, whatever the policy. */
  ghost predicate BranchLoop(l: Loop, p: Case, cfg: Config, times: seq<real>, j: nat)
    requires EventsKnown(p)
  {
    && Clock(l, p, cfg, times) && LoopGood(l, cfg) && l.k <= |times| && l.e.c.truth == TruthAfter(p, times, l.k)
    && (l.k <= j ==> l.e.c.hits == 0) && l.e.c.hits <= Achievable(p, cfg)
  }

  /** The resolution is one of the external instants. */
  lemma ResolutionIsExternal(p: Case, resolution: real) returns (j: nat)
    requires BranchCase(p, resolution)
    ensures j < |ExternalTimes(p.events)| && ExternalTimes(p.events)[j] == resolution
  {
    var s :| s in p.states;
    assert ResolvedAt(p, resolution, s);
    var e :| e in p.events && e.time == resolution && e.kind.Dependents? && e.kind.state == s;
    assert resolution in ExternalTimes(p.events);
    j :| 0 <= j < |ExternalTimes(p.events)| && ExternalTimes(p.events)[j] == resolution;
  }

  lemma BareGains(e: Engine, p: Case, cfg: Config, now: real)
    requires Ready(e.c, p) && Regular(cfg.host)
    ensures Instant(e, p, cfg, [], now).c.hits == e.c.hits
  {
    InstantWithoutReuse(e, p, cfg, [], now);
  }

  lemma BranchTruthValid(p: Case, resolution: real, times: seq<real>, k: nat)
    requires BranchCase(p, resolution) && EventsKnown(p) && k <= |times|
    ensures EverythingValid(TruthAfter(p, times, k))
  {
    forall e | e in p.events ensures !e.kind.Invalidate? {
      assert BranchEvent(p, resolution, e);
    }
    hide BranchCase;
    TruthAfterValid(p, times, k);
  }

  lemma AdvanceKeepsBranch(l: Loop, p: Case, resolution: real, cfg: Config, times: seq<real>, j: nat, now: real)
    requires Turn(l, p, cfg, times) && EventsKnown(p) && BranchCase(p, resolution) && BranchLoop(l, p, cfg, times, j)
    requires j < |times| && times[j] == resolution && Upcoming(l.e, p, cfg, times, l.k, l.last) == Some(now)
    ensures BranchLoop(Advance(l, p, cfg, times, now), p, cfg, times, j)
  {
    AdvanceKeepsClock(l, p, cfg, times, now);
    AdvanceKeepsGood(l, p, cfg, times, now);
    AdvanceTruth(l, p, cfg, times, now);
    BatchKnown(p, times, l.k, now);
    BranchTruthValid(p, resolution, times, l.k);
    EventsAreBranch(p, resolution, times, l.k, now);
    TurnReady(l, p, cfg, times);
    if l.k < |times| { }
    hide Instant, Clock, BranchCase, WellFormedCase, TruthAfter, Batch, Turn, Upcoming, BranchBatch, Ready,
        EverythingValid, Achievable;
    InstantGains(l.e, p, resolution, cfg, Events(p, times, l.k, now), now);
    if NextExternal(times, l.k) != Some(now) {
      BareGains(l.e, p, cfg, now);
    }
  }

  lemma {:induction false} RunKeepsBranch(l: Loop, p: Case, resolution: real, cfg: Config, times: seq<real>, j: nat)
    requires Turn(l, p, cfg, times) && EventsKnown(p) && BranchCase(p, resolution) && BranchLoop(l, p, cfg, times, j)
    requires j < |times| && times[j] == resolution
    ensures BranchLoop(RunFrom(l, p, cfg, times), p, cfg, times, j)
    decreases |times| - l.k, |l.e.c.resident.Keys|
  {
    hide Turn, Upcoming, Advance, BranchLoop, BranchCase, EventsKnown;
    var next := Upcoming(l.e, p, cfg, times, l.k, l.last);
    if next.Some? {
      AdvanceDecreases(l, p, cfg, times);
      AdvanceKeepsBranch(l, p, resolution, cfg, times, j, next.value);
      RunKeepsBranch(Advance(l, p, cfg, times, next.value), p, resolution, cfg, times, j);
    }
  }

  lemma BranchStart(p: Case, resolution: real, cfg: Config, j: nat)
    requires BranchCase(p, resolution) && Configured(cfg)
    ensures EventsKnown(p) && Turn(FirstTurn(p), p, cfg, ExternalTimes(p.events))
    ensures BranchLoop(FirstTurn(p), p, cfg, ExternalTimes(p.events), j)
  {
    hide BranchCase, WellFormedCase, Clock, Turn, EventsKnown, FirstTurn, LoopGood;
    BranchIsWellFormed(p, resolution);
    FirstTurnClock(p, cfg);
    StartsFresh(p, cfg);
  }

  lemma StartsFresh(p: Case, cfg: Config)
    ensures FirstTurn(p).e.c.truth == InitialTruth(p) && LoopGood(FirstTurn(p), cfg)
    ensures FirstTurn(p).k == 0 && FirstTurn(p).e.c.hits == 0 && !FirstTurn(p).e.c.infeasible
  {
  }

  lemma BranchIsWellFormed(p: Case, resolution: real)
    requires BranchCase(p, resolution)
    ensures WellFormedCase(p) && EventsKnown(p) && SingleAdmits(p)
  {
  }

  /** No policy gets more hits on a branch program than there are WAITING States, or than fit the capacity. */
  lemma NoPolicyBeatsTheBound(p: Case, resolution: real, cfg: Config)
    requires BranchCase(p, resolution) && Configured(cfg)
    ensures RunProgram(p, cfg).c.hits <= Achievable(p, cfg)
  {
    var j := ResolutionIsExternal(p, resolution);
    BranchStart(p, resolution, cfg, j);
    hide Turn, BranchCase, RunFrom, Finish, FirstTurn;
    RunKeepsBranch(FirstTurn(p), p, resolution, cfg, ExternalTimes(p.events), j);
    FinishKeepsCounts(Looped(p, cfg), p, cfg);
  }
}
