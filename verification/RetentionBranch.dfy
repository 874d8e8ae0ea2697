/**
 The branch workload: States admitted one by one while their continuations are WAITING or SPECULATIVE,
 then resolved and reused at one instant. LIFECYCLE_B4 gets every hit the capacity allows, and no
 policy gets more.
 */
module RetentionBranch {
  import opened Entities
  import opened Sorting
  import opened RetentionModel
  import opened RetentionSafety
  import opened RetentionCapacity
  import opened RetentionTruth
  import opened RetentionInclusion

  function WaitingStates(p: Case): set<Id> {
    set s | s in p.states && DeriveLifecycle(p.states[s].dependents) == Waiting
  }

  /** Admissions before the resolution, one reuse per WAITING State at it, only endings after it. */
  predicate BranchEvent(p: Case, resolution: real, e: Event) {
    match e.kind
    case Invalidate(_) => false
    case Admit(_) => e.time < resolution
    case Reuse(s, valid) => e.time == resolution && valid && s in WaitingStates(p)
    case Dependents(s, l) =>
      e.time > resolution || (e.time == resolution && DeriveLifecycle(l) == if s in WaitingStates(p) then Active
          else Terminal)
    case SessionStatus(_, _) => e.time > resolution
  }

  ghost predicate ResolvedAt(p: Case, t: real, s: Id) {
    exists e :: e in p.events && e.time == t && e.kind.Dependents? && e.kind.state == s
  }

  ghost predicate ReusedAt(p: Case, t: real, s: Id) {
    exists e :: e in p.events && e.time == t && e.kind == Reuse(s, true)
  }

  ghost predicate BranchCase(p: Case, resolution: real) {
    && WellFormedCase(p) && SingleAdmits(p) && OneAdmitPerState(p)
    && (forall s :: s in p.states ==> DeriveLifecycle(p.states[s].dependents) in {Waiting, Speculative})
    && (forall e :: e in p.events ==> BranchEvent(p, resolution, e))
    && (forall s :: s in p.states ==> ResolvedAt(p, resolution, s))
    && (forall s :: s in WaitingStates(p) ==> ReusedAt(p, resolution, s))
    && (forall a, b :: a in p.events && b in p.events && a.kind.Reuse? && b.kind == a.kind ==> a == b)
  }

  function Least(a: nat, b: nat): nat { if a < b then a else b }

  /** The hits the capacity allows. */
  function Achievable(p: Case, cfg: Config): nat {
    Least(|WaitingStates(p)|, Slots(cfg))
  }

  // ---------- hits of an instant ----------

  function ReuseStates(q: seq<Event>): set<Id> {
    set i | 0 <= i < |q| && q[i].kind.Reuse? :: q[i].kind.state
  }

  ghost predicate DistinctReuses(q: seq<Event>) {
    forall i, j :: 0 <= i < j < |q| && q[i].kind.Reuse? && q[j].kind.Reuse? ==> q[i].kind.state != q[j].kind.state
  }

  ghost predicate AllValid(c: Cache, q: seq<Event>) {
    forall i :: 0 <= i < |q| && q[i].kind.Reuse? ==>
        q[i].kind.semanticValid && q[i].kind.state in c.truth && c.truth[q[i].kind.state].valid
  }

  predicate Hits(c: Cache, k: EventKind) {
    k.Reuse? && k.semanticValid && k.state in c.truth && c.truth[k.state].valid && k.state in c.resident
  }

  lemma PassStepHits(e: Engine, p: Case, cfg: Config, pass: Pass, ev: Event)
    requires Ready(e.c, p) && KnownNames(p, ev.kind)
    ensures PassStep(e, p, cfg, pass, ev).c.hits == e.c.hits + if pass == Reusing && Hits(e.c, ev.kind) then 1 else 0
    ensures pass == Reusing ==>
              PassStep(e, p, cfg, pass, ev).c.truth == e.c.truth &&
                  PassStep(e, p, cfg, pass, ev).c.resident.Keys == e.c.resident.Keys
  {
    if ev.kind.Reuse? {
      ReusedHits(e, cfg, ev.kind.state, ev.kind.semanticValid, ev.time);
      hide Reused;
    } else {
      hide Note, DeriveLifecycle, Judge, Occurrence, Reused;
    }
  }

  lemma ReusedHits(e: Engine, cfg: Config, s: Id, valid: bool, now: real)
    requires s in e.c.truth
    ensures var r := Reused(e, cfg, s, valid, now).c;
            && r.hits == e.c.hits + (if Hits(e.c, Reuse(s, valid)) then 1 else 0)
            && r.truth == e.c.truth && r.resident.Keys == e.c.resident.Keys
  {
    hide Note;
  }

  lemma OneMoreCommon(s: set<Id>, r: set<Id>, x: Id)
    requires x !in s
    ensures |(s + {x}) * r| == |s * r| + if x in r then 1 else 0
  {
    if x in r {
      assert (s + {x}) * r == s * r + {x};
    } else {
      assert (s + {x}) * r == s * r;
    }
  }

  /** The hits of a reuse pass are the resident ones of the States it asks for. */
  lemma {:induction false} ReusePassHits(e: Engine, p: Case, cfg: Config, q: seq<Event>)
    requires Ready(e.c, p) && (forall i :: 0 <= i < |q| ==> KnownNames(p, q[i].kind)) && DistinctReuses(q)
    requires AllValid(e.c, q)
    ensures var r := PassOver(e, p, cfg, Reusing, q).c;
            && r.hits == e.c.hits + |ReuseStates(q) * e.c.resident.Keys|
            && r.truth == e.c.truth && r.resident.Keys == e.c.resident.Keys
  {
    hide PassStep, Ready, ReuseStates;
    if q == [] {
      NoReuses(q);
    } else {
      var n := |q| - 1;
      var rest, before := q[..n], PassOver(e, p, cfg, Reusing, q[..n]);
      assert forall i :: 0 <= i < n ==> rest[i] == q[i];
      ReusePassHits(e, p, cfg, rest);
      PassStepHits(before, p, cfg, Reusing, q[n]);
      ReuseStatesLast(q);
      if q[n].kind.Reuse? {
        OneMoreCommon(ReuseStates(rest), e.c.resident.Keys, q[n].kind.state);
      }
    }
  }

  lemma NoReuses(q: seq<Event>)
    requires forall i :: 0 <= i < |q| ==> !q[i].kind.Reuse?
    ensures ReuseStates(q) == {} && forall r: set<Id> :: |ReuseStates(q) * r| == 0
  {
    forall r: set<Id> ensures |ReuseStates(q) * r| == 0 {
      assert ReuseStates(q) * r == {};
    }
  }

  lemma ReuseStatesLast(q: seq<Event>)
    requires q != []
    ensures var n := |q| - 1;
            ReuseStates(q) == if q[n].kind.Reuse? then ReuseStates(q[..n]) + {q[n].kind.state} else ReuseStates(q[..n])
    ensures DistinctReuses(q) && q[|q| - 1].kind.Reuse? ==> q[|q| - 1].kind.state !in ReuseStates(q[..|q| - 1])
  {
    var n := |q| - 1;
    forall x ensures x in ReuseStates(q) <==> x in ReuseStates(q[..n]) || (q[n].kind.Reuse? && q[n].kind.state == x) {
      if x in ReuseStates(q) {
        var i :| 0 <= i < |q| && q[i].kind.Reuse? && q[i].kind.state == x;
        if i < n { assert q[..n][i] == q[i]; }
      }
      if x in ReuseStates(q[..n]) {
        var i :| 0 <= i < n && q[..n][i].kind.Reuse? && q[..n][i].kind.state == x;
        assert q[i] == q[..n][i];
      }
    }
  }

  lemma {:induction false} OtherPassHits(e: Engine, p: Case, cfg: Config, pass: Pass, q: seq<Event>)
    requires Ready(e.c, p) && (forall i :: 0 <= i < |q| ==> KnownNames(p, q[i].kind)) && pass != Reusing
    ensures PassOver(e, p, cfg, pass, q).c.hits == e.c.hits
  {
    hide PassStep, Ready;
    if q != [] {
      OtherPassHits(e, p, cfg, pass, q[..|q| - 1]);
      PassStepHits(PassOver(e, p, cfg, pass, q[..|q| - 1]), p, cfg, pass, q[|q| - 1]);
    }
  }

  /** The engine of an instant when its reuse pass begins. */
  ghost function AtReuse(e: Engine, p: Case, cfg: Config, q: seq<Event>, now: real): (r: Engine)
    requires Ready(e.c, p) && Regular(cfg.host) && forall i :: 0 <= i < |q| ==> KnownNames(p, q[i].kind)
    ensures Ready(r.c, p)
  {
    var updated := PassOver(PassOver(e, p, cfg, Invalidating, q), p, cfg, Updating, q);
    TtlExpiries(PolicyReleases(updated, p, cfg, now), cfg, now)
  }

  lemma InstantHits(e: Engine, p: Case, cfg: Config, q: seq<Event>, now: real)
    requires Ready(e.c, p) && Regular(cfg.host) && (forall i :: 0 <= i < |q| ==> KnownNames(p, q[i].kind))
    requires DistinctReuses(q) && AllValid(AtReuse(e, p, cfg, q, now).c, q)
    ensures Instant(e, p, cfg, q, now).c.hits ==
            e.c.hits + |ReuseStates(q) * AtReuse(e, p, cfg, q, now).c.resident.Keys|
  {
    hide PassOver, PolicyReleases, TtlExpiries, Enforce, Ready;
    OtherPassHits(e, p, cfg, Invalidating, q);
    var invalidated := PassOver(e, p, cfg, Invalidating, q);
    OtherPassHits(invalidated, p, cfg, Updating, q);
    var released := AtReuse(e, p, cfg, q, now);
    ReusePassHits(released, p, cfg, q);
    var reused := PassOver(released, p, cfg, Reusing, q).(admitted := []);
    OtherPassHits(reused, p, cfg, Admitting, q);
    var filled := BeforeEnforcement(e, p, cfg, q, now);
    ReadyInside(filled.c, p);
  }

  /** Without reuse events an instant leaves the hits alone. */
  lemma InstantWithoutReuse(e: Engine, p: Case, cfg: Config, q: seq<Event>, now: real)
    requires Ready(e.c, p) && Regular(cfg.host)
    requires forall i :: 0 <= i < |q| ==> KnownNames(p, q[i].kind) && !q[i].kind.Reuse?
    ensures Instant(e, p, cfg, q, now).c.hits == e.c.hits
  {
    hide AtReuse, Instant;
    InstantHits(e, p, cfg, q, now);
    NoReuses(q);
    assert |ReuseStates(q) * AtReuse(e, p, cfg, q, now).c.resident.Keys| == 0;
  }

  // ---------- the events of a branch case ----------

  lemma BatchDistinctReuses(p: Case, resolution: real, now: real)
    requires BranchCase(p, resolution)
    ensures DistinctReuses(Batch(p, now))
  {
    var q := Batch(p, now);
    forall i, j | 0 <= i < j < |q| && q[i].kind.Reuse? && q[j].kind.Reuse? ensures q[i].kind.state != q[j].kind.state {
      assert q[i] in q && q[j] in q;
      assert BranchEvent(p, resolution, q[i]) && BranchEvent(p, resolution, q[j]);
      if q[i].kind.state == q[j].kind.state {
        assert q[i].kind == q[j].kind;
        Twice(q, i, j);
        SortPermutes(At(p.events, now), EventLe);
        AtCounts(p.events, now, q[i]);
        DistinctCounts(p.events, q[i]);
      }
    }
  }

  lemma BatchIsBranch(p: Case, resolution: real, now: real)
    requires BranchCase(p, resolution)
    ensures forall i :: 0 <= i < |Batch(p, now)| ==>
            BranchEvent(p, resolution, Batch(p, now)[i]) && Batch(p, now)[i].time == now
    ensures now != resolution ==> forall i :: 0 <= i < |Batch(p, now)| ==> !Batch(p, now)[i].kind.Reuse?
  {
    var q := Batch(p, now);
    forall i | 0 <= i < |q| ensures BranchEvent(p, resolution, q[i]) && q[i].time == now {
      assert q[i] in q;
    }
  }

  /** The States asked for at the resolution are the WAITING ones. */
  lemma ResolutionReuses(p: Case, resolution: real)
    requires BranchCase(p, resolution)
    ensures ReuseStates(Batch(p, resolution)) == WaitingStates(p)
  {
    hide Batch, WaitingStates, WellFormedCase, SingleAdmits, OneAdmitPerState, DeriveLifecycle, BranchEvent, ReusedAt,
        ResolvedAt;
    forall s ensures s in ReuseStates(Batch(p, resolution)) <==> s in WaitingStates(p) {
      if s in ReuseStates(Batch(p, resolution)) {
        ReusedIsWaiting(p, resolution, s);
      }
      if s in WaitingStates(p) {
        WaitingIsReused(p, resolution, s);
      }
    }
  }

  lemma ReusedIsWaiting(p: Case, resolution: real, s: Id)
    requires (forall e :: e in p.events ==> BranchEvent(p, resolution, e)) && s in ReuseStates(Batch(p, resolution))
    ensures s in WaitingStates(p)
  {
    var q := Batch(p, resolution);
    var i :| 0 <= i < |q| && q[i].kind.Reuse? && q[i].kind.state == s;
    assert q[i] in q;
    assert BranchEvent(p, resolution, q[i]);
  }

  lemma WaitingIsReused(p: Case, resolution: real, s: Id)
    requires ReusedAt(p, resolution, s)
    ensures s in ReuseStates(Batch(p, resolution))
  {
    var q := Batch(p, resolution);
    var e :| e in p.events && e.time == resolution && e.kind == Reuse(s, true);
    assert e in q;
    var i :| 0 <= i < |q| && q[i] == e;
    assert q[i].kind.Reuse?;
  }

  // ---------- nothing ever becomes invalid ----------

  ghost predicate EverythingValid(t: TruthMap) {
    forall s :: s in t ==> t[s].valid
  }

  lemma {:induction false} TruthPassKeepsValid(t: TruthMap, q: seq<Event>, pass: Pass)
    requires forall i :: 0 <= i < |q| ==> KnownStates(t.Keys, q[i].kind) && !q[i].kind.Invalidate?
    requires EverythingValid(t)
    ensures EverythingValid(TruthPass(t, q, pass))
  {
    if q != [] {
      TruthPassKeepsValid(t, q[..|q| - 1], pass);
    }
  }

  lemma AtReuseValid(e: Engine, p: Case, cfg: Config, q: seq<Event>, now: real)
    requires Ready(e.c, p) && Regular(cfg.host)
    requires forall i :: 0 <= i < |q| ==> KnownNames(p, q[i].kind) && !q[i].kind.Invalidate?
    requires EverythingValid(e.c.truth) && forall i :: 0 <= i < |q| && q[i].kind.Reuse? ==> q[i].kind.semanticValid
    ensures AllValid(AtReuse(e, p, cfg, q, now).c, q)
    ensures AtReuse(e, p, cfg, q, now).c.truth == TruthPass(TruthPass(e.c.truth, q, Invalidating), q, Updating)
  {
    hide PassOver, PolicyReleases, TtlExpiries;
    PassTruth(e, p, cfg, Invalidating, q);
    var invalidated := PassOver(e, p, cfg, Invalidating, q);
    PassTruth(invalidated, p, cfg, Updating, q);
    TruthPassKeepsValid(e.c.truth, q, Invalidating);
    TruthPassKeepsValid(invalidated.c.truth, q, Updating);
    hide EverythingValid;
    var r := AtReuse(e, p, cfg, q, now);
    assert r.c.truth == PassOver(invalidated, p, cfg, Updating, q).c.truth;
    forall i | 0 <= i < |q| && q[i].kind.Reuse?
      ensures q[i].kind.state in r.c.truth && r.c.truth[q[i].kind.state].valid
    {
    }
  }

  ghost predicate NoInvalidates(p: Case) {
    forall e :: e in p.events ==> !e.kind.Invalidate?
  }

  lemma BatchInvalidatesNothing(p: Case, t: real)
    requires NoInvalidates(p)
    ensures forall i :: 0 <= i < |Batch(p, t)| ==> !Batch(p, t)[i].kind.Invalidate?
  {
    var q := Batch(p, t);
    forall i | 0 <= i < |q| ensures !q[i].kind.Invalidate? {
      assert q[i] in p.events;
    }
  }

  lemma {:induction false} TruthAfterValid(p: Case, times: seq<real>, k: nat)
    requires NoInvalidates(p) && EventsKnown(p) && k <= |times|
    ensures EverythingValid(TruthAfter(p, times, k))
    decreases k
  {
    hide EverythingValid, NoInvalidates, EventsKnown, Batch, KnownStates, TruthOver;
    if k == 0 {
      StartsValid(p);
    } else {
      hide TruthAfter;
      TruthAfterValid(p, times, k - 1);
      NextTruth(p, times, k - 1);
      BatchInvalidatesNothing(p, times[k - 1]);
      TruthOverKeepsValid(TruthAfter(p, times, k - 1), Batch(p, times[k - 1]));
    }
  }

  lemma StartsValid(p: Case)
    ensures EverythingValid(InitialTruth(p))
  {
  }

  lemma {:induction false} TruthOverKeepsValid(t: TruthMap, q: seq<Event>)
    requires forall i :: 0 <= i < |q| ==> KnownStates(t.Keys, q[i].kind) && !q[i].kind.Invalidate?
    requires EverythingValid(t)
    ensures EverythingValid(TruthOver(t, q))
  {
    if q != [] {
      TruthOverKeepsValid(t, q[..|q| - 1]);
    }
  }
}
