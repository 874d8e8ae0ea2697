/** LIFECYCLE_B4 on the branch workload: exactly the achievable hits, and never infeasible. */
module RetentionBranchB4 {
  import opened Entities
  import opened Sorting
  import opened RetentionModel
  import opened RetentionRuns
  import opened RetentionSafety
  import opened RetentionTime
  import opened RetentionCapacity
  import opened RetentionTruth
  import opened RetentionInclusion
  import opened RetentionLruRuns
  import opened RetentionBranch
  import opened RetentionBranchRuns

  function HeldWaiting(c: Cache, p: Case): set<Id> {
    c.resident.Keys * WaitingStates(p)
  }

  function ProducedWaiting(t: TruthMap, p: Case): set<Id> {
    set s | s in WaitingStates(p) && s in t && t[s].produced
  }

  /** Before the resolution: every State valid, with its initial lifecycle, WAITING or SPECULATIVE. */
  ghost predicate Unresolved(t: TruthMap, p: Case) {
    forall s :: s in t ==>
      && t[s].valid && s in p.states && t[s].lifecycle == DeriveLifecycle(p.states[s].dependents)
      && t[s].lifecycle in {Waiting, Speculative}
  }

  // ---------- enforcement before the resolution ----------

  lemma VictimLowest(c: Cache, p: Case, cfg: Config, v: Id, u: Id)
    requires c.resident.Keys <= c.truth.Keys && Unresolved(c.truth, p) && cfg.policy == LifecycleB4
    requires IsVictim(c, cfg, v) && u in c.resident
    ensures v in c.resident && (v in WaitingStates(p) ==> u in WaitingStates(p))
  {
    assert u in Candidates(c, cfg);
    assert KeyLe(c, cfg, v, u);
  }

  lemma AllCandidates(c: Cache, p: Case, cfg: Config)
    requires c.resident.Keys <= c.truth.Keys && Unresolved(c.truth, p) && cfg.policy == LifecycleB4
    ensures Candidates(c, cfg) == c.resident.Keys && ActiveBytes(c) == 0
  {
    assert ActiveResidents(c) == {};
  }

  /** SPECULATIVE States go first, so as many WAITING ones stay as fit. */
  lemma {:induction false} EvictDownKeepsWaiting(e: Engine, p: Case, cfg: Config, now: real)
    requires e.c.resident.Keys <= e.c.truth.Keys && Regular(cfg.host) && cfg.policy == LifecycleB4
    requires Unresolved(e.c.truth, p)
    ensures |HeldWaiting(EvictDown(e, cfg, now).e.c, p)| == Least(|HeldWaiting(e.c, p)|, Slots(cfg))
    decreases |e.c.resident|
  {
    hide IsVictim, WaitingStates, Slots, Candidates, ActiveBytes, Unresolved;
    FitsBySlots(|e.c.resident|, cfg);
    SubsetSmaller(HeldWaiting(e.c, p), e.c.resident.Keys);
    AllCandidates(e.c, p, cfg);
    if Bytes(e.c) > cfg.capacity {
      assert |e.c.resident.Keys| > 0;
      assert e.c.resident.Keys != {};
      var v := Victim(e.c, cfg);
      VictimLowest(e.c, p, cfg, v, v);
      var next := Drop(e, v, now);
      EvictDownKeepsWaiting(next, p, cfg, now);
      DroppedWaiting(e.c, next.c, p, v);
      if v in WaitingStates(p) {
        forall u | u in e.c.resident ensures u in WaitingStates(p) {
          VictimLowest(e.c, p, cfg, v, u);
        }
        assert HeldWaiting(e.c, p) == e.c.resident.Keys;
      }
    }
  }

  lemma DroppedWaiting(c: Cache, d: Cache, p: Case, v: Id)
    requires v in c.resident && d.resident == c.resident - {v}
    ensures |HeldWaiting(d, p)| == |HeldWaiting(c, p)| - if v in WaitingStates(p) then 1 else 0
  {
    assert d.resident.Keys == c.resident.Keys - {v};
    if v in WaitingStates(p) {
      assert HeldWaiting(c, p) == HeldWaiting(d, p) + {v};
    } else {
      assert HeldWaiting(c, p) == HeldWaiting(d, p);
    }
  }

  lemma EnforceKeepsWaiting(e: Engine, p: Case, cfg: Config, now: real)
    requires e.c.resident.Keys <= e.c.truth.Keys && Regular(cfg.host) && cfg.policy == LifecycleB4
    requires Unresolved(e.c.truth, p)
    ensures |HeldWaiting(Enforce(e, cfg, now).c, p)| == Least(|HeldWaiting(e.c, p)|, Slots(cfg))
    ensures Enforce(e, cfg, now).c.infeasible == e.c.infeasible
  {
    AllCandidates(e.c, p, cfg);
    EvictDownKeepsWaiting(e, p, cfg, now);
    hide EvictDown, HeldWaiting, Slots, ActiveBytes, Candidates;
    assert Shrunk(e, cfg, now) == EvictDown(e, cfg, now);
  }

  // ---------- admissions before the resolution ----------

  lemma ProducedGains(t: TruthMap, p: Case, s: Id)
    requires s in t && !t[s].produced
    ensures |ProducedWaiting(t[s := t[s].(produced := true)], p)| ==
            |ProducedWaiting(t, p)| + if s in WaitingStates(p) then 1 else 0
  {
    var before, after := ProducedWaiting(t, p), ProducedWaiting(t[s := t[s].(produced := true)], p);
    forall x ensures x in after <==> x in before || (x == s && s in WaitingStates(p)) {
    }
    assert s !in before;
    hide ProducedWaiting, WaitingStates;
    assert after == if s in WaitingStates(p) then before + {s} else before;
  }

  lemma HeldGains(c: Cache, d: Cache, p: Case, s: Id)
    requires s !in c.resident && d.resident.Keys == c.resident.Keys + {s}
    ensures |HeldWaiting(d, p)| == |HeldWaiting(c, p)| + if s in WaitingStates(p) then 1 else 0
  {
    hide WaitingStates;
    OneMoreCommon(c.resident.Keys, WaitingStates(p), s);
  }

  /** Before the resolution B4 admits every State it is offered for the first time. */
  lemma B4Admits(e: Engine, p: Case, cfg: Config, ev: Event)
    requires Ready(e.c, p) && ev.kind.Admit? && KnownNames(p, ev.kind) && cfg.policy == LifecycleB4
    requires Unresolved(e.c.truth, p) && ev.kind.state !in e.c.resident
    ensures var s, r := ev.kind.state, PassStep(e, p, cfg, Admitting, ev).c;
            && r.resident.Keys == e.c.resident.Keys + {s} && r.infeasible == e.c.infeasible
            && r.truth == e.c.truth[s := e.c.truth[s].(produced := true)]
  {
    hide NewResident, Note, ActiveBytes;
  }

  lemma ProducingKeepsUnresolved(t: TruthMap, p: Case, s: Id)
    requires Unresolved(t, p) && s in t
    ensures Unresolved(t[s := t[s].(produced := true)], p)
  {
  }

  lemma AdmitStepWaiting(e: Engine, p: Case, cfg: Config, ev: Event)
    requires Ready(e.c, p) && KnownNames(p, ev.kind) && cfg.policy == LifecycleB4 && Unresolved(e.c.truth, p)
    requires OnlyProduced(e.c)
    requires ev.kind.Admit? ==> !e.c.truth[ev.kind.state].produced
    ensures var r := PassStep(e, p, cfg, Admitting, ev).c;
            && |HeldWaiting(r, p)| - |HeldWaiting(e.c, p)| ==
               |ProducedWaiting(r.truth, p)| - |ProducedWaiting(e.c.truth, p)|
            && |HeldWaiting(r, p)| >= |HeldWaiting(e.c, p)|
            && r.infeasible == e.c.infeasible && Unresolved(r.truth, p) && OnlyProduced(r)
  {
    AdmitStepProduces(e, p, cfg, ev);
    if ev.kind.Admit? {
      var s := ev.kind.state;
      assert s !in e.c.resident;
      B4Admits(e, p, cfg, ev);
      hide PassStep, OnlyProduced, Unresolved, HeldWaiting, ProducedWaiting, WaitingStates;
      ProducedGains(e.c.truth, p, s);
      HeldGains(e.c, PassStep(e, p, cfg, Admitting, ev).c, p, s);
      ProducingKeepsUnresolved(e.c.truth, p, s);
    }
    hide OnlyProduced, Unresolved, HeldWaiting, ProducedWaiting;
  }

  lemma StillUnproduced(e: Engine, p: Case, cfg: Config, q: seq<Event>)
    requires Ready(e.c, p) && q != [] && (forall i :: 0 <= i < |q| ==> KnownNames(p, q[i].kind))
    requires OnlyProduced(e.c) && Unproduced(e.c.truth, q) && DistinctAdmits(q) && q[|q| - 1].kind.Admit?
    ensures var r := PassOver(e, p, cfg, Admitting, q[..|q| - 1]).c;
            q[|q| - 1].kind.state in r.truth && !r.truth[q[|q| - 1].kind.state].produced
  {
    hide PassOver;
    var n := |q| - 1;
    AdmitPassProduces(e, p, cfg, q[..n]);
    var s := q[n].kind.state;
    assert s in e.c.truth && !e.c.truth[s].produced;
    assert forall i :: 0 <= i < n ==> q[..n][i].kind != Admit(s);
  }

  lemma {:induction false} AdmitPassWaiting(e: Engine, p: Case, cfg: Config, q: seq<Event>)
    requires Ready(e.c, p) && (forall i :: 0 <= i < |q| ==> KnownNames(p, q[i].kind)) && cfg.policy == LifecycleB4
    requires Unresolved(e.c.truth, p) && OnlyProduced(e.c) && Unproduced(e.c.truth, q) && DistinctAdmits(q)
    ensures var r := PassOver(e, p, cfg, Admitting, q).c;
            && |HeldWaiting(r, p)| - |HeldWaiting(e.c, p)| ==
               |ProducedWaiting(r.truth, p)| - |ProducedWaiting(e.c.truth, p)|
            && |HeldWaiting(r, p)| >= |HeldWaiting(e.c, p)|
            && r.infeasible == e.c.infeasible && Unresolved(r.truth, p) && OnlyProduced(r)
  {
    hide Ready, PassStep, OnlyProduced, Unresolved, HeldWaiting, ProducedWaiting;
    if q != [] {
      var n := |q| - 1;
      assert forall i :: 0 <= i < n ==> q[..n][i] == q[i];
      AdmitPassWaiting(e, p, cfg, q[..n]);
      if q[n].kind.Admit? {
        StillUnproduced(e, p, cfg, q);
      }
      AdmitStepWaiting(PassOver(e, p, cfg, Admitting, q[..n]), p, cfg, q[n]);
    }
  }

  // ---------- an instant before the resolution ----------

  lemma {:induction false} QuietPass(e: Engine, p: Case, cfg: Config, pass: Pass, q: seq<Event>)
    requires Ready(e.c, p) && (forall i :: 0 <= i < |q| ==> KnownNames(p, q[i].kind) && q[i].kind.Admit?)
    requires pass != Admitting
    ensures PassOver(e, p, cfg, pass, q) == e
  {
    hide Ready;
    if q != [] {
      QuietPass(e, p, cfg, pass, q[..|q| - 1]);
    }
  }

  lemma NothingToRelease(e: Engine, p: Case, cfg: Config, now: real)
    requires Regular(cfg.host) && cfg.policy == LifecycleB4 && Unresolved(e.c.truth, p)
    ensures var r := TtlExpiries(PolicyReleases(e, p, cfg, now), cfg, now).c; r == e.c.(wasted := r.wasted)
  {
    hide PolicyReleases, TtlExpiries;
    assert Releasable(e.c, p, cfg) == {};
    assert Expired(PolicyReleases(e, p, cfg, now).c, cfg, now) == {};
    assert TtlExpiries(PolicyReleases(e, p, cfg, now), cfg, now).c.resident == e.c.resident;
  }

  /** As many WAITING States are held as were produced, up to the slots. */
  ghost predicate Filled(e: Engine, p: Case, cfg: Config) {
    && !e.c.infeasible && OnlyProduced(e.c)
    && |HeldWaiting(e.c, p)| == Least(|ProducedWaiting(e.c.truth, p)|, Slots(cfg))
  }

  lemma EarlyBeforeEnforcement(e: Engine, p: Case, cfg: Config, q: seq<Event>, now: real)
    requires Ready(e.c, p) && Regular(cfg.host) && cfg.policy == LifecycleB4 && Unresolved(e.c.truth, p)
    requires forall i :: 0 <= i < |q| ==> KnownNames(p, q[i].kind) && q[i].kind.Admit?
    ensures exists from: Engine ::
              && from.c == e.c.(wasted := from.c.wasted) && Ready(from.c, p)
              && BeforeEnforcement(e, p, cfg, q, now) == PassOver(from, p, cfg, Admitting, q)
  {
    hide PassOver, PolicyReleases, TtlExpiries;
    QuietPass(e, p, cfg, Invalidating, q);
    QuietPass(e, p, cfg, Updating, q);
    NothingToRelease(e, p, cfg, now);
    ReleasedReady(e, p, cfg, now);
    var released := TtlExpiries(PolicyReleases(e, p, cfg, now), cfg, now);
    QuietPass(released, p, cfg, Reusing, q);
    var from := released.(admitted := []);
    hide Ready, Unresolved;
    assert BeforeEnforcement(e, p, cfg, q, now) == PassOver(from, p, cfg, Admitting, q);
  }

  lemma EarlyInstant(e: Engine, p: Case, cfg: Config, q: seq<Event>, now: real)
    requires Ready(e.c, p) && Regular(cfg.host) && cfg.policy == LifecycleB4 && Unresolved(e.c.truth, p)
    requires Filled(e, p, cfg)
    requires forall i :: 0 <= i < |q| ==> KnownNames(p, q[i].kind) && q[i].kind.Admit?
    requires Unproduced(e.c.truth, q) && DistinctAdmits(q)
    ensures Filled(Instant(e, p, cfg, q, now), p, cfg)
  {
    hide HeldWaiting, ProducedWaiting, Unresolved, OnlyProduced, PassOver, Enforce, Slots, Unproduced, Ready,
        BeforeEnforcement, DistinctAdmits;
    EarlyBeforeEnforcement(e, p, cfg, q, now);
    var from: Engine :| from.c == e.c.(wasted := from.c.wasted) && Ready(from.c, p)
                        && BeforeEnforcement(e, p, cfg, q, now) == PassOver(from, p, cfg, Admitting, q);
    SameHoldings(e.c, from.c, p);
    AdmitPassWaiting(from, p, cfg, q);
    var filled := PassOver(from, p, cfg, Admitting, q);
    ReadyInside(filled.c, p);
    EnforceKeepsWaiting(filled, p, cfg, now);
    EnforceKeepsProduced(filled, cfg, now);
  }

  lemma SameHoldings(c: Cache, d: Cache, p: Case)
    requires d == c.(wasted := d.wasted)
    ensures HeldWaiting(d, p) == HeldWaiting(c, p) && (OnlyProduced(c) ==> OnlyProduced(d)) && d.truth == c.truth
    ensures d.infeasible == c.infeasible
  {
  }

  // ---------- the resolution ----------

  /** Every State has its resolved lifecycle. */
  ghost predicate Resolved(t: TruthMap, p: Case) {
    forall s :: s in t ==> t[s].lifecycle == if s in WaitingStates(p) then Active else Terminal
  }

  predicate Relabels(p: Case, k: EventKind) {
    k.Dependents? ==> DeriveLifecycle(k.lifecycles) == if k.state in WaitingStates(p) then Active else Terminal
  }

  /** After the update pass each State named by an event of the list has its resolved lifecycle. */
  lemma {:induction false} UpdatesResolve(t: TruthMap, p: Case, q: seq<Event>, s: Id)
    requires (forall i :: 0 <= i < |q| ==> KnownStates(t.Keys, q[i].kind) && Relabels(p, q[i].kind)) && s in t
    requires exists i :: 0 <= i < |q| && q[i].kind.Dependents? && q[i].kind.state == s
    ensures TruthPass(t, q, Updating)[s].lifecycle == if s in WaitingStates(p) then Active else Terminal
  {
    hide WaitingStates, DeriveLifecycle;
    var n := |q| - 1;
    var i :| 0 <= i < |q| && q[i].kind.Dependents? && q[i].kind.state == s;
    if !(q[n].kind.Dependents? && q[n].kind.state == s) {
      assert q[..n][i] == q[i];
      UpdatesResolve(t, p, q[..n], s);
    }
  }

  lemma ResolvedInBranch(p: Case, resolution: real, s: Id)
    requires BranchCase(p, resolution) && s in p.states
    ensures ResolvedAt(p, resolution, s)
  {
  }

  lemma EventOfState(p: Case, resolution: real, s: Id) returns (i: nat)
    requires BranchCase(p, resolution) && s in p.states
    ensures var q := Batch(p, resolution); i < |q| && q[i].kind.Dependents? && q[i].kind.state == s
  {
    hide BranchCase, WaitingStates;
    ResolvedInBranch(p, resolution, s);
    var e :| e in p.events && e.time == resolution && e.kind.Dependents? && e.kind.state == s;
    var q := Batch(p, resolution);
    assert e in q;
    i :| 0 <= i < |q| && q[i] == e;
  }

  lemma BatchRelabels(p: Case, resolution: real)
    requires BranchCase(p, resolution)
    ensures forall i :: 0 <= i < |Batch(p, resolution)| ==> Relabels(p, Batch(p, resolution)[i].kind)
  {
    BatchIsBranch(p, resolution, resolution);
    hide BranchCase, WaitingStates, DeriveLifecycle, Batch;
    var q := Batch(p, resolution);
    forall i | 0 <= i < |q| ensures Relabels(p, q[i].kind) {
      assert BranchEvent(p, resolution, q[i]);
    }
  }

  lemma BatchResolves(t: TruthMap, p: Case, resolution: real)
    requires BranchCase(p, resolution) && t.Keys == p.states.Keys
    requires forall i :: 0 <= i < |Batch(p, resolution)| ==> KnownStates(t.Keys, Batch(p, resolution)[i].kind)
    ensures Resolved(TruthPass(TruthPass(t, Batch(p, resolution), Invalidating), Batch(p, resolution), Updating), p)
  {
    hide BranchCase, Batch, WaitingStates, Relabels;
    BatchRelabels(p, resolution);
    var q := Batch(p, resolution);
    var t' := TruthPass(t, q, Invalidating);
    forall s | s in t'
      ensures TruthPass(t', q, Updating)[s].lifecycle == if s in WaitingStates(p) then Active else Terminal
    {
      var i := EventOfState(p, resolution, s);
      UpdatesResolve(t', p, q, s);
    }
  }

  lemma UpdateStepKeepsResidents(e: Engine, p: Case, cfg: Config, ev: Event)
    requires Ready(e.c, p) && KnownNames(p, ev.kind)
    ensures PassStep(e, p, cfg, Updating, ev).c.resident == e.c.resident
    ensures !ev.kind.Invalidate? ==> PassStep(e, p, cfg, Invalidating, ev).c.resident == e.c.resident
  {
    hide Note, DeriveLifecycle;
  }

  lemma {:induction false} UpdatesKeepResidents(e: Engine, p: Case, cfg: Config, pass: Pass, q: seq<Event>)
    requires Ready(e.c, p) && (forall i :: 0 <= i < |q| ==> KnownNames(p, q[i].kind) && !q[i].kind.Invalidate?)
    requires pass == Invalidating || pass == Updating
    ensures PassOver(e, p, cfg, pass, q).c.resident == e.c.resident
  {
    hide PassStep, Ready;
    if q != [] {
      UpdatesKeepResidents(e, p, cfg, pass, q[..|q| - 1]);
      UpdateStepKeepsResidents(PassOver(e, p, cfg, pass, q[..|q| - 1]), p, cfg, q[|q| - 1]);
    }
  }

  lemma ReleasesLeaveWaiting(e: Engine, p: Case, cfg: Config, now: real)
    requires Ready(e.c, p) && Regular(cfg.host) && cfg.policy == LifecycleB4 && Resolved(e.c.truth, p)
    ensures TtlExpiries(PolicyReleases(e, p, cfg, now), cfg, now).c.resident.Keys == HeldWaiting(e.c, p)
  {
    hide PolicyReleases, TtlExpiries, WaitingStates;
    var released := PolicyReleases(e, p, cfg, now);
    assert released.c.resident.Keys == HeldWaiting(e.c, p);
    assert Expired(released.c, cfg, now) == {};
  }

  /** At the resolution exactly the WAITING residents are left when the reuses are looked up. */
  lemma ResidentsAtReuse(e: Engine, p: Case, cfg: Config, q: seq<Event>, now: real)
    requires Ready(e.c, p) && Regular(cfg.host) && cfg.policy == LifecycleB4
    requires forall i :: 0 <= i < |q| ==> KnownNames(p, q[i].kind) && !q[i].kind.Invalidate?
    requires forall i :: 0 <= i < |q| ==> KnownStates(e.c.truth.Keys, q[i].kind)
    requires Resolved(TruthPass(TruthPass(e.c.truth, q, Invalidating), q, Updating), p)
    ensures AtReuse(e, p, cfg, q, now).c.resident.Keys == HeldWaiting(e.c, p)
  {
    hide PassOver, PolicyReleases, TtlExpiries, WaitingStates, TruthPass, KnownNames, KnownStates;
    PassTruth(e, p, cfg, Invalidating, q);
    UpdatesKeepResidents(e, p, cfg, Invalidating, q);
    var invalidated := PassOver(e, p, cfg, Invalidating, q);
    PassTruth(invalidated, p, cfg, Updating, q);
    UpdatesKeepResidents(invalidated, p, cfg, Updating, q);
    var updated := PassOver(invalidated, p, cfg, Updating, q);
    assert updated.c.resident == e.c.resident && Resolved(updated.c.truth, p);
    hide Resolved, Ready;
    ReleasesLeaveWaiting(updated, p, cfg, now);
  }

  // ---------- feasibility from the resolution on ----------

  lemma PassStepFeasible(e: Engine, p: Case, cfg: Config, pass: Pass, ev: Event)
    requires Ready(e.c, p) && KnownNames(p, ev.kind) && !ev.kind.Admit?
    ensures PassStep(e, p, cfg, pass, ev).c.infeasible == e.c.infeasible
    ensures PassStep(e, p, cfg, pass, ev).c.resident.Keys <= e.c.resident.Keys
  {
    hide Note, DeriveLifecycle;
  }

  lemma {:induction false} PassFeasible(e: Engine, p: Case, cfg: Config, pass: Pass, q: seq<Event>)
    requires Ready(e.c, p) && forall i :: 0 <= i < |q| ==> KnownNames(p, q[i].kind) && !q[i].kind.Admit?
    ensures PassOver(e, p, cfg, pass, q).c.infeasible == e.c.infeasible
    ensures PassOver(e, p, cfg, pass, q).c.resident.Keys <= e.c.resident.Keys
  {
    hide PassStep, Ready;
    if q != [] {
      PassFeasible(e, p, cfg, pass, q[..|q| - 1]);
      PassStepFeasible(PassOver(e, p, cfg, pass, q[..|q| - 1]), p, cfg, pass, q[|q| - 1]);
    }
  }

  lemma EnforceFeasible(e: Engine, cfg: Config, now: real)
    requires e.c.resident.Keys <= e.c.truth.Keys && Regular(cfg.host) && Bytes(e.c) <= cfg.capacity
    ensures Enforce(e, cfg, now).c.infeasible == e.c.infeasible
  {
    FitsRepairable(e.c, cfg);
    hide ActiveBytes, Bytes, EvictDown;
  }

  lemma FewerBytes(c: Cache, d: Cache, cfg: Config)
    requires Bytes(c) <= cfg.capacity && d.resident.Keys <= c.resident.Keys
    ensures Bytes(d) <= cfg.capacity
  {
    SubsetSmaller(d.resident.Keys, c.resident.Keys);
  }

  /** An instant that admits nothing leaves the feasibility alone. */
  lemma LateInstantFeasible(e: Engine, p: Case, cfg: Config, q: seq<Event>, now: real)
    requires Ready(e.c, p) && Regular(cfg.host) && Bytes(e.c) <= cfg.capacity
    requires forall i :: 0 <= i < |q| ==> KnownNames(p, q[i].kind) && !q[i].kind.Admit?
    ensures Instant(e, p, cfg, q, now).c.infeasible == e.c.infeasible
  {
    hide Ready, PassOver, PolicyReleases, TtlExpiries, Enforce, Bytes;
    PassFeasible(e, p, cfg, Invalidating, q);
    var invalidated := PassOver(e, p, cfg, Invalidating, q);
    PassFeasible(invalidated, p, cfg, Updating, q);
    var updated := PassOver(invalidated, p, cfg, Updating, q);
    ReleasedReady(updated, p, cfg, now);
    var released := TtlExpiries(PolicyReleases(updated, p, cfg, now), cfg, now);
    PassFeasible(released, p, cfg, Reusing, q);
    var reused := PassOver(released, p, cfg, Reusing, q).(admitted := []);
    PassFeasible(reused, p, cfg, Admitting, q);
    var filled := BeforeEnforcement(e, p, cfg, q, now);
    ReadyInside(filled.c, p);
    FewerBytes(e.c, filled.c, cfg);
    EnforceFeasible(filled, cfg, now);
  }

  // ---------- the truth up to the resolution ----------

  lemma {:induction false} AdmitsKeepUnresolved(t: TruthMap, p: Case, q: seq<Event>)
    requires (forall i :: 0 <= i < |q| ==> KnownStates(t.Keys, q[i].kind) && q[i].kind.Admit?) && Unresolved(t, p)
    ensures Unresolved(TruthOver(t, q), p)
  {
    hide Unresolved;
    if q != [] {
      AdmitsKeepUnresolved(t, p, q[..|q| - 1]);
      ProducingKeepsUnresolved(TruthOver(t, q[..|q| - 1]), p, q[|q| - 1].kind.state);
    }
  }

  lemma EarlyBatchAdmits(p: Case, resolution: real, now: real)
    requires BranchCase(p, resolution) && now < resolution
    ensures forall i :: 0 <= i < |Batch(p, now)| ==> Batch(p, now)[i].kind.Admit?
  {
    BatchIsBranch(p, resolution, now);
    var q := Batch(p, now);
    forall i | 0 <= i < |q| ensures q[i].kind.Admit? {
      assert BranchEvent(p, resolution, q[i]);
    }
  }

  lemma BranchStartsUnresolved(p: Case, resolution: real)
    requires BranchCase(p, resolution)
    ensures Unresolved(InitialTruth(p), p)
  {
  }

  lemma {:induction false} UnresolvedBefore(p: Case, resolution: real, times: seq<real>, k: nat, j: nat)
    requires BranchCase(p, resolution) && EventsKnown(p) && k <= j < |times| && times[j] == resolution
    requires Increasing(times)
    ensures Unresolved(TruthAfter(p, times, k), p)
  {
    hide Unresolved, BranchCase, EventsKnown, Batch;
    if k == 0 {
      BranchStartsUnresolved(p, resolution);
    } else {
      UnresolvedBefore(p, resolution, times, k - 1, j);
      EarlyBatchAdmits(p, resolution, times[k - 1]);
      BatchStates(p, times[k - 1]);
      AdmitsKeepUnresolved(TruthAfter(p, times, k - 1), p, Batch(p, times[k - 1]));
    }
  }

  lemma {:induction false} TruthOverKeepsProduced(t: TruthMap, q: seq<Event>, s: Id)
    requires (forall i :: 0 <= i < |q| ==> KnownStates(t.Keys, q[i].kind)) && s in t
    ensures t[s].produced || (exists i :: 0 <= i < |q| && q[i].kind == Admit(s)) ==> TruthOver(t, q)[s].produced
  {
    if q != [] {
      var n := |q| - 1;
      TruthOverKeepsProduced(t, q[..n], s);
      if i :| 0 <= i < n && q[i].kind == Admit(s) {
        assert q[..n][i].kind == Admit(s);
      }
    }
  }

  lemma {:induction false} PastProduces(p: Case, times: seq<real>, k: nat, e: Event)
    requires EventsKnown(p) && k <= |times| && e in p.events && e.kind.Admit? && e.kind.state in p.states
    requires e.time in times[..k]
    ensures TruthAfter(p, times, k)[e.kind.state].produced
  {
    hide TruthOver, KnownStates, Batch, EventsKnown;
    var q := Batch(p, times[k - 1]);
    NextTruth(p, times, k - 1);
    hide TruthAfter;
    TruthOverKeepsProduced(TruthAfter(p, times, k - 1), q, e.kind.state);
    if e.time in times[..k - 1] {
      PastProduces(p, times, k - 1, e);
    } else {
      assert times[..k] == times[..k - 1] + [times[k - 1]];
      assert e in q;
      var i :| 0 <= i < |q| && q[i] == e;
    }
  }

  lemma EarlierTime(times: seq<real>, j: nat, t: real)
    requires Increasing(times) && j < |times| && t in times && t < times[j]
    ensures t in times[..j]
  {
    var i :| 0 <= i < |times| && times[i] == t;
    assert times[..j][i] == t;
  }

  lemma AdmitOfState(p: Case, resolution: real, s: Id) returns (e: Event)
    requires BranchCase(p, resolution) && s in p.states
    ensures e in p.events && e.kind == Admit(s) && e.time < resolution
  {
    e :| e in p.events && e.kind == Admit(s);
    assert BranchEvent(p, resolution, e);
  }

  /** By the resolution every State has been produced. */
  lemma AllProduced(p: Case, resolution: real, j: nat)
    requires BranchCase(p, resolution) && EventsKnown(p)
    requires j < |ExternalTimes(p.events)| && ExternalTimes(p.events)[j] == resolution
    ensures ProducedWaiting(TruthAfter(p, ExternalTimes(p.events), j), p) == WaitingStates(p)
  {
    hide BranchCase, EventsKnown;
    var times := ExternalTimes(p.events);
    forall s | s in WaitingStates(p) ensures TruthAfter(p, times, j)[s].produced {
      var e := AdmitOfState(p, resolution, s);
      EarlierTime(times, j, e.time);
      PastProduces(p, times, j, e);
    }
  }

  // ---------- whole runs ----------

  ghost predicate B4Loop(l: Loop, p: Case, cfg: Config, times: seq<real>, j: nat)
    requires EventsKnown(p)
  {
    && BranchLoop(l, p, cfg, times, j) && !l.e.c.infeasible
    && (l.k <= j ==> Filled(l.e, p, cfg)) && (l.k > j ==> l.e.c.hits == Achievable(p, cfg))
  }

  lemma EarlyAdvance(l: Loop, p: Case, resolution: real, cfg: Config, times: seq<real>, j: nat)
    requires Turn(l, p, cfg, times) && EventsKnown(p) && BranchCase(p, resolution) && cfg.policy == LifecycleB4
    requires l.k < j < |times| && times[j] == resolution && l.e.c.truth == TruthAfter(p, times, l.k)
    requires Filled(l.e, p, cfg)
    ensures Filled(Advance(l, p, cfg, times, times[l.k]).e, p, cfg)
  {
    var now := times[l.k];
    BranchIsWellFormed(p, resolution);
    TurnReady(l, p, cfg, times);
    TurnTimes(l, p, cfg, times);
    hide Turn, BranchCase, WellFormedCase, Filled, Instant, Batch, TruthAfter, Unproduced, DistinctAdmits, Unresolved,
        Ready;
    BatchKnown(p, times, l.k, now);
    UnresolvedBefore(p, resolution, times, l.k, j);
    EarlyBatchAdmits(p, resolution, now);
    BatchUnproduced(p, times, l.k);
    BatchDistinctAdmits(p, times, l.k, now);
    EarlyInstant(l.e, p, cfg, Events(p, times, l.k, now), now);
  }

  lemma TurnTimes(l: Loop, p: Case, cfg: Config, times: seq<real>)
    requires Turn(l, p, cfg, times)
    ensures times == ExternalTimes(p.events) && Increasing(times)
  {
  }

  lemma LateBatch(p: Case, resolution: real, now: real)
    requires BranchCase(p, resolution) && resolution <= now
    ensures forall i :: 0 <= i < |Batch(p, now)| ==> !Batch(p, now)[i].kind.Admit? && !Batch(p, now)[i].kind.Invalidate?
    ensures forall i :: 0 <= i < |Batch(p, now)| && Batch(p, now)[i].kind.Reuse? ==> Batch(p, now)[i].kind.semanticValid
  {
    BatchIsBranch(p, resolution, now);
    var q := Batch(p, now);
    forall i | 0 <= i < |q|
      ensures !q[i].kind.Admit? && !q[i].kind.Invalidate? && (q[i].kind.Reuse? ==> q[i].kind.semanticValid)
    {
      assert BranchEvent(p, resolution, q[i]);
    }
  }

  /** At the resolution B4 gains exactly the achievable hits. */
  lemma ResolutionHits(e: Engine, p: Case, resolution: real, cfg: Config)
    requires BranchCase(p, resolution) && Ready(e.c, p) && Regular(cfg.host) && cfg.policy == LifecycleB4
    requires forall i :: 0 <= i < |Batch(p, resolution)| ==> KnownNames(p, Batch(p, resolution)[i].kind)
    requires EverythingValid(e.c.truth) && ProducedWaiting(e.c.truth, p) == WaitingStates(p) && Filled(e, p, cfg)
    ensures Instant(e, p, cfg, Batch(p, resolution), resolution).c.hits == e.c.hits + Achievable(p, cfg)
  {
    hide BranchCase, Instant, Batch, EverythingValid, WaitingStates, ProducedWaiting, Ready, AtReuse, Slots;
    var q := Batch(p, resolution);
    LateBatch(p, resolution, resolution);
    ReadyKeys(e.c, p);
    forall i | 0 <= i < |q| ensures KnownStates(e.c.truth.Keys, q[i].kind) {
      assert KnownNames(p, q[i].kind);
    }
    hide KnownNames;
    AtReuseValid(e, p, cfg, q, resolution);
    BatchDistinctReuses(p, resolution, resolution);
    InstantHits(e, p, cfg, q, resolution);
    ResolutionReuses(p, resolution);
    BatchResolves(e.c.truth, p, resolution);
    ResidentsAtReuse(e, p, cfg, q, resolution);
    assert WaitingStates(p) * HeldWaiting(e.c, p) == HeldWaiting(e.c, p);
  }

  lemma ReadyKeys(c: Cache, p: Case)
    requires Ready(c, p)
    ensures c.truth.Keys == p.states.Keys
  {
  }

  lemma LateAdvanceFeasible(l: Loop, p: Case, resolution: real, cfg: Config, times: seq<real>, j: nat)
    requires Turn(l, p, cfg, times) && BranchCase(p, resolution) && cfg.policy == LifecycleB4
    requires j <= l.k < |times| && times[j] == resolution && LoopGood(l, cfg)
    ensures Advance(l, p, cfg, times, times[l.k]).e.c.infeasible == l.e.c.infeasible
  {
    hide Turn, BranchCase, WellFormedCase, Instant, Batch, Ready, KnownNames, Bytes, Good, Fits;
    var now := times[l.k];
    FitsMeans(l.e, cfg);
    TurnReady(l, p, cfg, times);
    TurnTimes(l, p, cfg, times);
    TurnOfCase(l, p, cfg, times);
    BatchKnown(p, times, l.k, now);
    LateBatch(p, resolution, now);
    LateInstantFeasible(l.e, p, cfg, Events(p, times, l.k, now), now);
  }

  lemma ResolutionAdvance(l: Loop, p: Case, resolution: real, cfg: Config, times: seq<real>)
    requires Turn(l, p, cfg, times) && EventsKnown(p) && BranchCase(p, resolution) && cfg.policy == LifecycleB4
    requires l.k < |times| && times[l.k] == resolution && l.e.c.truth == TruthAfter(p, times, l.k)
    requires Filled(l.e, p, cfg)
    ensures Advance(l, p, cfg, times, resolution).e.c.hits == l.e.c.hits + Achievable(p, cfg)
  {
    hide Turn, BranchCase, WellFormedCase, Instant, Batch, Ready, Filled, TruthAfter, EverythingValid,
        ProducedWaiting, Achievable, EventsKnown, KnownNames;
    TurnReady(l, p, cfg, times);
    TurnTimes(l, p, cfg, times);
    TurnOfCase(l, p, cfg, times);
    BatchKnown(p, times, l.k, resolution);
    BranchTruthValid(p, resolution, times, l.k);
    AllProduced(p, resolution, l.k);
    ResolutionHits(l.e, p, resolution, cfg);
  }

  lemma LateAdvanceHits(l: Loop, p: Case, resolution: real, cfg: Config, times: seq<real>, j: nat)
    requires Turn(l, p, cfg, times) && BranchCase(p, resolution) && j < l.k < |times| && times[j] == resolution
    ensures Advance(l, p, cfg, times, times[l.k]).e.c.hits == l.e.c.hits
  {
    var now := times[l.k];
    TurnReady(l, p, cfg, times);
    TurnTimes(l, p, cfg, times);
    BatchKnown(p, times, l.k, now);
    hide Turn, BranchCase, WellFormedCase, Instant, Batch, Ready;
    BatchIsBranch(p, resolution, now);
    InstantWithoutReuse(l.e, p, cfg, Events(p, times, l.k, now), now);
  }

  lemma AdvanceKeepsB4(l: Loop, p: Case, resolution: real, cfg: Config, times: seq<real>, j: nat, now: real)
    requires Turn(l, p, cfg, times) && EventsKnown(p) && BranchCase(p, resolution) && B4Loop(l, p, cfg, times, j)
    requires cfg.policy == LifecycleB4 && j < |times| && times[j] == resolution
    requires Upcoming(l.e, p, cfg, times, l.k, l.last) == Some(now)
    ensures B4Loop(Advance(l, p, cfg, times, now), p, cfg, times, j)
  {
    hide Turn, BranchCase, Advance, Clock, LoopGood, TruthAfter, Upcoming, Achievable, Filled, EventsKnown;
    EveryTurnIsExternal(l, p, cfg, times);
    AdvanceKeepsBranch(l, p, resolution, cfg, times, j, now);
    if l.k < j {
      hide BranchLoop;
      EarlyAdvance(l, p, resolution, cfg, times, j);
      FilledIsFeasible(Advance(l, p, cfg, times, now).e, p, cfg);
    } else {
      LateAdvanceFeasible(l, p, resolution, cfg, times, j);
      if l.k == j {
        ResolutionAdvance(l, p, resolution, cfg, times);
      } else {
        LateAdvanceHits(l, p, resolution, cfg, times, j);
      }
    }
  }

  lemma FilledIsFeasible(e: Engine, p: Case, cfg: Config)
    requires Filled(e, p, cfg)
    ensures !e.c.infeasible
  {
  }

  lemma {:induction false} RunKeepsB4(l: Loop, p: Case, resolution: real, cfg: Config, times: seq<real>, j: nat)
    requires Turn(l, p, cfg, times) && EventsKnown(p) && BranchCase(p, resolution) && B4Loop(l, p, cfg, times, j)
    requires cfg.policy == LifecycleB4 && j < |times| && times[j] == resolution
    ensures B4Loop(RunFrom(l, p, cfg, times), p, cfg, times, j)
    decreases |times| - l.k, |l.e.c.resident.Keys|
  {
    hide Turn, Upcoming, Advance, B4Loop, BranchCase, EventsKnown;
    var next := Upcoming(l.e, p, cfg, times, l.k, l.last);
    if next.Some? {
      AdvanceDecreases(l, p, cfg, times);
      AdvanceKeepsB4(l, p, resolution, cfg, times, j, next.value);
      RunKeepsB4(Advance(l, p, cfg, times, next.value), p, resolution, cfg, times, j);
    }
  }

  lemma FreshFilled(e: Engine, p: Case, cfg: Config)
    requires e.c.resident == map[] && e.c.truth == InitialTruth(p) && !e.c.infeasible
    ensures Filled(e, p, cfg)
  {
    assert HeldWaiting(e.c, p) == {};
    assert ProducedWaiting(e.c.truth, p) == {};
  }

  lemma B4Start(p: Case, resolution: real, cfg: Config, j: nat)
    requires BranchCase(p, resolution) && Configured(cfg)
    ensures EventsKnown(p) && Turn(FirstTurn(p), p, cfg, ExternalTimes(p.events))
    ensures B4Loop(FirstTurn(p), p, cfg, ExternalTimes(p.events), j)
  {
    hide BranchCase, Turn, BranchLoop, EventsKnown, FirstTurn, Filled;
    BranchStart(p, resolution, cfg, j);
    StartsFresh(p, cfg);
    StartsEmpty(p);
    FreshFilled(FirstTurn(p).e, p, cfg);
  }

  lemma StartsEmpty(p: Case)
    ensures FirstTurn(p).e.c.resident == map[]
  {
  }

  /**
   LIFECYCLE_B4 is optimal on branch programs: it gets exactly min(number of WAITING States, slots)
   reuse hits, the bound no policy exceeds, and it neither raises nor is ever infeasible.
   */
  lemma B4IsOptimal(p: Case, resolution: real, cfg: Config)
    requires BranchCase(p, resolution) && Configured(cfg) && cfg.policy == LifecycleB4
    ensures RunProgram(p, cfg).c.hits == Achievable(p, cfg) && !RunProgram(p, cfg).c.infeasible
    ensures !RunProgram(p, cfg).failed
  {
    BranchIsWellFormed(p, resolution);
    NeverOvercommits(p, cfg);
    var j := ResolutionIsExternal(p, resolution);
    var times := ExternalTimes(p.events);
    B4Start(p, resolution, cfg, j);
    B4AllConsumed(p, resolution, cfg);
    hide Turn, BranchCase, RunFrom, Finish, FirstTurn;
    RunKeepsB4(FirstTurn(p), p, resolution, cfg, times, j);
    FinishKeepsCounts(Looped(p, cfg), p, cfg);
    FinishKeepsFeasibility(Looped(p, cfg), p, cfg);
  }

  lemma B4AllConsumed(p: Case, resolution: real, cfg: Config)
    requires BranchCase(p, resolution) && Configured(cfg)
    ensures Looped(p, cfg).k == |ExternalTimes(p.events)|
  {
    BranchIsWellFormed(p, resolution);
    hide BranchCase, RunFrom;
    EveryInstantVisited(p, cfg);
  }

  lemma FinishKeepsFeasibility(l: Loop, p: Case, cfg: Config)
    requires Regular(cfg.host)
    ensures Finish(l, p, cfg).c.infeasible == l.e.c.infeasible
  {
    SortedNamesIndexed(l.e.c.resident.Keys, cfg.host);
    hide SortedNames, ReleaseAll;
  }
}
