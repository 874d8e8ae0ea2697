/**
 What each policy keeps and lets go of, after every turn of the loop and whatever the capacity: which residents
 are tenable, and what can end the stay of a pinned or protected State.
 */
module RetentionPolicyRuns {
  import opened Entities
  import opened Sorting
  import opened RetentionModel
  import opened RetentionRuns
  import opened RetentionTime
  import opened RetentionTruth
  import opened RetentionSafety
  import opened RetentionCapacity
  import opened RetentionLate

  // ---------- one instant ----------

  function InvalidatedIn(q: seq<Event>): set<Id> {
    set ev | ev in q && ev.kind.Invalidate? :: ev.kind.state
  }

  predicate SameCounts(c: Cache, d: Cache) {
    d.opportunities == c.opportunities && d.hits == c.hits && d.rejections == c.rejections
  }

  /** Which States a pass other than the admissions takes away, and what it leaves as it was. */
  ghost predicate Passed(c: Cache, d: Cache, pass: Pass, gone: set<Id>) {
    && d.resident.Keys == c.resident.Keys - gone && d.truth.Keys == c.truth.Keys && d.infeasible == c.infeasible
    && (pass != Updating ==> d.sessions == c.sessions) && (pass != Reusing ==> SameCounts(c, d))
    && (forall s :: s in c.truth ==>
          && d.truth[s].valid == (c.truth[s].valid && s !in gone) && d.truth[s].produced == c.truth[s].produced
          && (pass != Updating ==> d.truth[s].lifecycle == c.truth[s].lifecycle))
    && forall s :: s in d.resident ==>
         d.resident[s].expiry == c.resident[s].expiry && d.resident[s].ordinal == c.resident[s].ordinal
  }

  function GoneIn(pass: Pass, q: seq<Event>): set<Id> {
    if pass == Invalidating then InvalidatedIn(q) else {}
  }

  lemma StepPasses(e: Engine, p: Case, cfg: Config, pass: Pass, ev: Event)
    requires Ready(e.c, p) && KnownNames(p, ev.kind) && pass != Admitting
    ensures Passed(e.c, PassStep(e, p, cfg, pass, ev).c, pass, GoneIn(pass, [ev]))
  {
    assert forall x :: x in [ev] <==> x == ev;
    assert InvalidatedIn([ev]) == if ev.kind.Invalidate? then {ev.kind.state} else {};
    hide InvalidatedIn, Passed, Invalidated, Relabelled, SessionSet, Reused, Admission, Note, DeriveLifecycle;
    StaysPassed(e.c, pass);
    match ev.kind
    case Invalidate(s) => InvalidationPasses(e, cfg, s, ev.time);
    case Dependents(s, l) => UpdatePasses(e, cfg, s, DeriveLifecycle(l), ev.time);
    case SessionStatus(s, live) => SessionPasses(e, cfg, s, live, ev.time);
    case Reuse(s, valid) => ReusePasses(e, cfg, s, valid, ev.time);
    case Admit(_) =>
  }

  lemma StaysPassed(c: Cache, pass: Pass)
    ensures Passed(c, c, pass, {})
  {
  }

  lemma InvalidationPasses(e: Engine, cfg: Config, s: Id, now: real)
    requires s in e.c.truth
    ensures Passed(e.c, Invalidated(e, cfg, s, now).c, Invalidating, {s})
  {
    hide Cost, Note, Passed;
    MarkedPasses(e.c, Invalidated(e, cfg, s, now).c, s);
  }

  lemma MarkedPasses(c: Cache, d: Cache, s: Id)
    requires s in c.truth && d.truth == c.truth[s := c.truth[s].(valid := false)] && d.sessions == c.sessions
    requires SameCounts(c, d) && d.infeasible == c.infeasible
    requires d.resident.Keys == c.resident.Keys - {s} && forall u :: u in d.resident ==> d.resident[u] == c.resident[u]
    ensures Passed(c, d, Invalidating, {s})
  {
  }

  lemma UpdatePasses(e: Engine, cfg: Config, s: Id, l: StateLifecycle, now: real)
    requires s in e.c.truth
    ensures Passed(e.c, Relabelled(e, cfg, s, l, now).c, Updating, {})
  {
  }

  lemma SessionPasses(e: Engine, cfg: Config, s: Id, live: bool, now: real)
    ensures Passed(e.c, SessionSet(e, cfg, s, live, now).c, Updating, {})
  {
  }

  lemma ReusePasses(e: Engine, cfg: Config, s: Id, valid: bool, now: real)
    requires s in e.c.truth
    ensures Passed(e.c, Reused(e, cfg, s, valid, now).c, Reusing, {})
  {
    hide Cost;
  }

  lemma PassedOn(c: Cache, d: Cache, e: Cache, pass: Pass, gone: set<Id>, more: set<Id>)
    requires Passed(c, d, pass, gone) && Passed(d, e, pass, more)
    ensures Passed(c, e, pass, gone + more)
  {
  }

  lemma GoneInLast(pass: Pass, q: seq<Event>)
    requires q != []
    ensures GoneIn(pass, q) == GoneIn(pass, q[..|q| - 1]) + GoneIn(pass, [q[|q| - 1]])
  {
    assert q == q[..|q| - 1] + [q[|q| - 1]];
  }

  lemma {:induction false} PassPasses(e: Engine, p: Case, cfg: Config, pass: Pass, q: seq<Event>)
    requires Ready(e.c, p) && (forall i :: 0 <= i < |q| ==> KnownNames(p, q[i].kind)) && pass != Admitting
    ensures Passed(e.c, PassOver(e, p, cfg, pass, q).c, pass, GoneIn(pass, q))
  {
    hide PassStep, Ready, KnownNames, Passed, GoneIn;
    if q == [] {
      NothingGone(e.c, pass);
    } else {
      var n := |q| - 1;
      var before := PassOver(e, p, cfg, pass, q[..n]);
      PassPasses(e, p, cfg, pass, q[..n]);
      StepPasses(before, p, cfg, pass, q[n]);
      GoneInLast(pass, q);
      PassedOn(e.c, before.c, PassOver(e, p, cfg, pass, q).c, pass, GoneIn(pass, q[..n]), GoneIn(pass, [q[n]]));
    }
  }

  lemma NothingGone(c: Cache, pass: Pass)
    ensures Passed(c, c, pass, GoneIn(pass, []))
  {
    assert GoneIn(pass, []) == {};
  }

  /** A resident no policy would refuse to hold: VALID, of a live Session if pinned, not TERMINAL under B4. */
  predicate Tenable(c: Cache, p: Case, cfg: Config, s: Id) {
    && s in c.truth && c.truth[s].valid
    && (cfg.policy == SessionPinning ==>
          s in p.states && p.states[s].session in c.sessions && c.sessions[p.states[s].session])
    && (cfg.policy == LifecycleB4 ==> c.truth[s].lifecycle != Terminal)
  }

  ghost predicate AllTenable(c: Cache, p: Case, cfg: Config) {
    forall s :: s in c.resident ==> Tenable(c, p, cfg, s)
  }

  ghost predicate AllValid(c: Cache) {
    forall s :: s in c.resident && s in c.truth ==> c.truth[s].valid
  }

  /** An admission adds only a tenable State, and leaves the Sessions and every label as they were. */
  ghost predicate Filled(c: Cache, d: Cache, p: Case, cfg: Config) {
    && d.sessions == c.sessions && d.truth.Keys == c.truth.Keys && SameCounts(c, d)
    && (c.infeasible ==> d.infeasible)
    && (forall s :: s in c.truth ==>
          d.truth[s].valid == c.truth[s].valid && d.truth[s].lifecycle == c.truth[s].lifecycle)
    && (forall s :: s in c.resident ==> s in d.resident && d.resident[s] == c.resident[s])
    && forall s :: s in d.resident && s !in c.resident ==> Tenable(d, p, cfg, s)
  }

  lemma AdmissionFills(e: Engine, p: Case, cfg: Config, ev: Event)
    requires Ready(e.c, p) && KnownNames(p, ev.kind)
    ensures Filled(e.c, PassStep(e, p, cfg, Admitting, ev).c, p, cfg)
  {
    AdmissionMoves(e, p, cfg, ev);
    if ev.kind.Admit? && Admits(e, p, cfg, ev) {
      AdmittedIsTenable(e, p, cfg, ev);
    }
    hide PassStep, Admits, Ready, KnownNames, Filled, Moves, Tenable;
    MovesFill(e.c, PassStep(e, p, cfg, Admitting, ev).c, p, cfg, ev, ev.kind.Admit? && Admits(e, p, cfg, ev));
  }

  lemma AdmittedIsTenable(e: Engine, p: Case, cfg: Config, ev: Event)
    requires Ready(e.c, p) && KnownNames(p, ev.kind) && ev.kind.Admit? && Admits(e, p, cfg, ev)
    ensures Tenable(e.c, p, cfg, ev.kind.state)
  {
  }

  lemma MovesFill(c: Cache, d: Cache, p: Case, cfg: Config, ev: Event, accepted: bool)
    requires Moves(c, d, p, cfg, ev, accepted)
    requires accepted ==> ev.kind.Admit? && Tenable(c, p, cfg, ev.kind.state)
    ensures Filled(c, d, p, cfg)
  {
    hide NewResident;
  }

  lemma {:induction false} AdmissionsFill(e: Engine, p: Case, cfg: Config, q: seq<Event>)
    requires Ready(e.c, p) && forall i :: 0 <= i < |q| ==> KnownNames(p, q[i].kind)
    ensures Filled(e.c, PassOver(e, p, cfg, Admitting, q).c, p, cfg)
  {
    hide PassStep, Ready, KnownNames, Filled;
    if q == [] {
      NothingFilled(e.c, p, cfg);
    } else {
      var n := |q| - 1;
      var before := PassOver(e, p, cfg, Admitting, q[..n]);
      AdmissionsFill(e, p, cfg, q[..n]);
      AdmissionFills(before, p, cfg, q[n]);
      FilledOn(e.c, before.c, PassOver(e, p, cfg, Admitting, q).c, p, cfg);
    }
  }

  lemma NothingFilled(c: Cache, p: Case, cfg: Config)
    ensures Filled(c, c, p, cfg)
  {
  }

  lemma FilledOn(c: Cache, d: Cache, e: Cache, p: Case, cfg: Config)
    requires Filled(c, d, p, cfg) && Filled(d, e, p, cfg)
    ensures Filled(c, e, p, cfg)
  {
  }

  lemma FilledStaysTenable(c: Cache, d: Cache, p: Case, cfg: Config)
    requires Filled(c, d, p, cfg) && AllTenable(c, p, cfg) && c.resident.Keys <= c.truth.Keys
    ensures AllTenable(d, p, cfg)
  {
  }

  /** The releases leave tenable residents only. */
  lemma ReleasesLeaveTenable(e: Engine, p: Case, cfg: Config, now: real)
    requires Ready(e.c, p) && Regular(cfg.host) && AllValid(e.c)
    ensures AllTenable(TtlExpiries(PolicyReleases(e, p, cfg, now), cfg, now).c, p, cfg)
  {
    hide PolicyReleases, TtlExpiries, Expired;
  }

  lemma ReusesKeepTenable(c: Cache, d: Cache, p: Case, cfg: Config)
    requires Passed(c, d, Reusing, {}) && AllTenable(c, p, cfg)
    ensures AllTenable(d, p, cfg)
  {
  }

  lemma EnforcementKeepsTenable(e: Engine, p: Case, cfg: Config, now: real)
    requires e.c.resident.Keys <= e.c.truth.Keys && Regular(cfg.host) && AllTenable(e.c, p, cfg)
    ensures AllTenable(Enforce(e, cfg, now).c, p, cfg)
  {
    hide EvictDown, NoteAdmissions, NoteAll;
  }

  // ---------- stages of an instant ----------

  /** After the invalidations and the updates, before the releases. */
  ghost function Updated(e: Engine, p: Case, cfg: Config, q: seq<Event>): (r: Engine)
    requires Ready(e.c, p) && forall i :: 0 <= i < |q| ==> KnownNames(p, q[i].kind)
    ensures Ready(r.c, p)
  {
    PassOver(PassOver(e, p, cfg, Invalidating, q), p, cfg, Updating, q)
  }

  lemma UpdatedPasses(e: Engine, p: Case, cfg: Config, q: seq<Event>)
    requires Ready(e.c, p) && forall i :: 0 <= i < |q| ==> KnownNames(p, q[i].kind)
    ensures var d := Updated(e, p, cfg, q).c;
            && d.resident.Keys == e.c.resident.Keys - InvalidatedIn(q) && d.truth.Keys == e.c.truth.Keys
            && SameCounts(e.c, d) && d.infeasible == e.c.infeasible
            && (forall s :: s in e.c.truth ==> d.truth[s].valid == (e.c.truth[s].valid && s !in InvalidatedIn(q)))
            && forall s :: s in d.resident ==>
                 d.resident[s].expiry == e.c.resident[s].expiry && d.resident[s].ordinal == e.c.resident[s].ordinal
  {
    hide PassOver, Ready, KnownNames;
    PassPasses(e, p, cfg, Invalidating, q);
    PassPasses(PassOver(e, p, cfg, Invalidating, q), p, cfg, Updating, q);
  }

  /** What an instant does after its releases: reuses, admissions and the enforcement. */
  lemma AfterReleases(e: Engine, p: Case, cfg: Config, q: seq<Event>, now: real)
    requires Ready(e.c, p) && Regular(cfg.host) && forall i :: 0 <= i < |q| ==> KnownNames(p, q[i].kind)
    ensures var released := TtlExpiries(PolicyReleases(Updated(e, p, cfg, q), p, cfg, now), cfg, now);
            var filled := BeforeEnforcement(e, p, cfg, q, now);
            && Ready(released.c, p)
            && Passed(released.c, PassOver(released, p, cfg, Reusing, q).c, Reusing, {})
            && Filled(PassOver(released, p, cfg, Reusing, q).c, filled.c, p, cfg)
            && Ready(filled.c, p) && filled.c.resident.Keys <= filled.c.truth.Keys
            && Instant(e, p, cfg, q, now).c == Enforce(filled, cfg, now).c
  {
    hide PassOver, PolicyReleases, TtlExpiries, Ready, KnownNames, Passed, Filled, Enforce, Regular;
    var updated := Updated(e, p, cfg, q);
    ReleasedReady(updated, p, cfg, now);
    var released := TtlExpiries(PolicyReleases(updated, p, cfg, now), cfg, now);
    PassPasses(released, p, cfg, Reusing, q);
    var reused := PassOver(released, p, cfg, Reusing, q);
    AdmissionsFill(reused.(admitted := []), p, cfg, q);
    ReadyInside(BeforeEnforcement(e, p, cfg, q, now).c, p);
  }

  /** Every instant leaves tenable residents only, provided the residents were VALID before it. */
  lemma InstantLeavesTenable(e: Engine, p: Case, cfg: Config, q: seq<Event>, now: real)
    requires Ready(e.c, p) && Regular(cfg.host) && forall i :: 0 <= i < |q| ==> KnownNames(p, q[i].kind)
    requires AllValid(e.c)
    ensures AllTenable(Instant(e, p, cfg, q, now).c, p, cfg)
  {
    hide PassOver, PolicyReleases, TtlExpiries, KnownNames, Passed, Filled, Enforce, BeforeEnforcement, Instant;
    hide Updated, AllTenable, AllValid, Ready, Regular;
    UpdatedKeepsValid(e, p, cfg, q);
    var updated := Updated(e, p, cfg, q);
    ReleasesLeaveTenable(updated, p, cfg, now);
    AfterReleases(e, p, cfg, q, now);
    var released := TtlExpiries(PolicyReleases(updated, p, cfg, now), cfg, now);
    var reused := PassOver(released, p, cfg, Reusing, q);
    ReusesKeepTenable(released.c, reused.c, p, cfg);
    var filled := BeforeEnforcement(e, p, cfg, q, now);
    ReadyInside(reused.c, p);
    FilledStaysTenable(reused.c, filled.c, p, cfg);
    EnforcementKeepsTenable(filled, p, cfg, now);
  }

  lemma UpdatedKeepsValid(e: Engine, p: Case, cfg: Config, q: seq<Event>)
    requires Ready(e.c, p) && (forall i :: 0 <= i < |q| ==> KnownNames(p, q[i].kind)) && AllValid(e.c)
    ensures AllValid(Updated(e, p, cfg, q).c)
  {
    UpdatedPasses(e, p, cfg, q);
    hide Updated, KnownNames;
  }

  // ---------- what ends a stay ----------

  /** The policy has no reason of its own to let the State go at `now`. */
  predicate Wanted(c: Cache, p: Case, cfg: Config, s: Id, expiry: Option<real>, now: real) {
    match cfg.policy
    case Lru => true
    case FixedTtl => expiry.Some? ==> expiry.value > now
    case SessionPinning =>
      s in p.states && p.states[s].session in c.sessions && c.sessions[p.states[s].session]
    case LifecycleB4 => s in c.truth && c.truth[s].lifecycle != Terminal
  }

  /** One more State fits, or the policy never evicts this one. */
  predicate Safe(c: Cache, cfg: Config, s: Id) {
    || Bytes(c) + STATE_BYTES <= cfg.capacity
    || cfg.policy == SessionPinning
    || (cfg.policy == LifecycleB4 && s in c.truth && c.truth[s].lifecycle == Active)
  }

  /**
   A resident State stays through an instant that does not invalidate it when the policy still wants it and either
   the cache ends up with room to spare or the policy protects the State. A pinned one so stays as long as its
   Session is live, an ACTIVE one under B4 as long as it is ACTIVE.
   */
  lemma WantedStays(e: Engine, p: Case, cfg: Config, q: seq<Event>, now: real, s: Id)
    requires Ready(e.c, p) && Regular(cfg.host) && forall i :: 0 <= i < |q| ==> KnownNames(p, q[i].kind)
    requires s in e.c.resident && s !in InvalidatedIn(q)
    ensures var r := Instant(e, p, cfg, q, now).c;
            Wanted(r, p, cfg, s, e.c.resident[s].expiry, now) && Safe(r, cfg, s) ==>
              s in r.resident && r.resident[s].ordinal == e.c.resident[s].ordinal
  {
    hide PassOver, KnownNames, BeforeEnforcement, Instant, Updated, Regular, Enforce, PolicyReleases, TtlExpiries, Safe,
        Wanted, Passed, Filled, Ready;
    var u := Updated(e, p, cfg, q);
    var released := TtlExpiries(PolicyReleases(u, p, cfg, now), cfg, now);
    UpdatedPasses(e, p, cfg, q);
    AfterReleases(e, p, cfg, q, now);
    var reused := PassOver(released, p, cfg, Reusing, q);
    var filled := BeforeEnforcement(e, p, cfg, q, now);
    LabelsStay(filled, cfg, now);
    var r := Enforce(filled, cfg, now).c;
    if Wanted(r, p, cfg, s, e.c.resident[s].expiry, now) && Safe(r, cfg, s) {
      ReleasesKeepLabels(u, p, cfg, now);
      LabelsThrough(u.c, released.c, reused.c, filled.c, r, p, cfg);
      WantedBefore(u.c, r, p, cfg, s, e.c.resident[s].expiry, now);
      ReleasesKeepWanted(u, p, cfg, now, s);
      StaysThrough(released.c, reused.c, filled.c, p, cfg, s);
      EnforcementKeepsSafe(filled, cfg, now, s);
    }
  }

  /** The Sessions, the States and their lifecycles are the same. */
  ghost predicate SameLabels(c: Cache, d: Cache) {
    c.sessions == d.sessions && c.truth.Keys == d.truth.Keys
    && forall s :: s in c.truth ==> d.truth[s].lifecycle == c.truth[s].lifecycle && d.truth[s].valid == c.truth[s].valid
  }

  lemma ReleasesKeepLabels(u: Engine, p: Case, cfg: Config, now: real)
    requires Regular(cfg.host)
    ensures SameLabels(u.c, TtlExpiries(PolicyReleases(u, p, cfg, now), cfg, now).c)
  {
    hide PolicyReleases, TtlExpiries;
  }

  lemma LabelsThrough(u: Cache, released: Cache, reused: Cache, filled: Cache, r: Cache, p: Case, cfg: Config)
    requires SameLabels(u, released) && Passed(released, reused, Reusing, {}) && Filled(reused, filled, p, cfg)
    requires r.truth == filled.truth && r.sessions == filled.sessions
    ensures SameLabels(u, r)
  {
  }

  lemma WantedBefore(u: Cache, r: Cache, p: Case, cfg: Config, s: Id, expiry: Option<real>, now: real)
    requires SameLabels(u, r)
    ensures Wanted(u, p, cfg, s, expiry, now) <==> Wanted(r, p, cfg, s, expiry, now)
  {
  }

  lemma ReleasesKeepWanted(u: Engine, p: Case, cfg: Config, now: real, s: Id)
    requires Regular(cfg.host) && s in u.c.resident && Wanted(u.c, p, cfg, s, u.c.resident[s].expiry, now)
    ensures var released := TtlExpiries(PolicyReleases(u, p, cfg, now), cfg, now).c;
            s in released.resident && released.resident[s] == u.c.resident[s]
  {
    hide PolicyReleases, TtlExpiries;
  }

  lemma StaysThrough(released: Cache, reused: Cache, filled: Cache, p: Case, cfg: Config, s: Id)
    requires Passed(released, reused, Reusing, {}) && Filled(reused, filled, p, cfg) && s in released.resident
    ensures s in filled.resident && filled.resident[s].ordinal == released.resident[s].ordinal
  {
  }

  lemma LabelsStay(e: Engine, cfg: Config, now: real)
    requires e.c.resident.Keys <= e.c.truth.Keys && Regular(cfg.host)
    ensures var r := Enforce(e, cfg, now).c;
            && r.truth == e.c.truth && r.sessions == e.c.sessions && r.resident.Keys <= e.c.resident.Keys
            && SameCounts(e.c, r) && (e.c.infeasible ==> r.infeasible)
            && forall s :: s in r.resident ==> r.resident[s] == e.c.resident[s]
  {
    hide EvictDown, NoteAdmissions, NoteAll;
  }

  lemma EnforcementKeepsSafe(e: Engine, cfg: Config, now: real, s: Id)
    requires e.c.resident.Keys <= e.c.truth.Keys && Regular(cfg.host) && s in e.c.resident
    ensures Safe(Enforce(e, cfg, now).c, cfg, s) ==> s in Enforce(e, cfg, now).c.resident
  {
    if cfg.policy != SessionPinning {
      var start := Shrinking(e, cfg, now);
      EvictDownKeepsSafe(start, cfg, now, s);
    }
    hide EvictDown, NoteAdmissions, NoteAll;
  }

  /** Where the evictions of an enforcement start. */
  function Shrinking(e: Engine, cfg: Config, now: real): Engine {
    if cfg.policy == LifecycleB4 && ActiveBytes(e.c) > cfg.capacity then MarkInfeasible(e, cfg, now, None) else e
  }

  lemma {:induction false} EvictDownKeepsSafe(e: Engine, cfg: Config, now: real, s: Id)
    requires e.c.resident.Keys <= e.c.truth.Keys && Regular(cfg.host) && s in e.c.resident
    requires cfg.policy != SessionPinning
    ensures Safe(EvictDown(e, cfg, now).e.c, cfg, s) ==> s in EvictDown(e, cfg, now).e.c.resident
  {
    SurvivorsHaveLargestKeys(e, cfg, now);
    EvictedAreCandidates(e, cfg, now);
    hide EvictDown, KeyLe;
  }

  lemma {:induction false} EvictedAreCandidates(e: Engine, cfg: Config, now: real)
    requires e.c.resident.Keys <= e.c.truth.Keys && Regular(cfg.host)
    ensures forall v :: v in EvictDown(e, cfg, now).evicted ==> v in Candidates(e.c, cfg)
    decreases |e.c.resident|
  {
    if Bytes(e.c) > cfg.capacity && Candidates(e.c, cfg) != {} {
      var v := Victim(e.c, cfg);
      assert (e.c.resident - {v}).Keys == e.c.resident.Keys - {v};
      EvictedAreCandidates(Drop(e, v, now), cfg, now);
    }
  }

  // ---------- what an ADMIT achieves ----------

  /** The policy would hold the State if it fitted. */
  predicate Welcome(c: Cache, p: Case, cfg: Config, s: Id) {
    s in c.truth && c.truth[s].valid && Wanted(c, p, cfg, s, None, 0.0)
  }

  lemma WelcomeIsServed(e: Engine, p: Case, cfg: Config, ev: Event)
    requires Ready(e.c, p) && KnownNames(p, ev.kind) && ev.kind.Admit? && Welcome(e.c, p, cfg, ev.kind.state)
    ensures var r := PassStep(e, p, cfg, Admitting, ev).c;
            || ev.kind.state in r.resident || r.infeasible
            || (cfg.policy in {Lru, FixedTtl} && STATE_BYTES > cfg.capacity)
  {
    hide NewResident;
  }

  lemma {:induction false} PassServes(e: Engine, p: Case, cfg: Config, q: seq<Event>, i: nat)
    requires Ready(e.c, p) && forall j :: 0 <= j < |q| ==> KnownNames(p, q[j].kind)
    requires i < |q| && q[i].kind.Admit? && Welcome(e.c, p, cfg, q[i].kind.state)
    ensures var r := PassOver(e, p, cfg, Admitting, q).c;
            || q[i].kind.state in r.resident || r.infeasible
            || (cfg.policy in {Lru, FixedTtl} && STATE_BYTES > cfg.capacity)
    decreases |q|
  {
    hide PassStep, Ready, KnownNames, Filled, Welcome;
    var n := |q| - 1;
    var before := PassOver(e, p, cfg, Admitting, q[..n]);
    AdmissionsFill(e, p, cfg, q[..n]);
    AdmissionFills(before, p, cfg, q[n]);
    FilledKeeps(before.c, PassOver(e, p, cfg, Admitting, q).c, p, cfg);
    if i < n {
      assert q[..n][i] == q[i];
      PassServes(e, p, cfg, q[..n], i);
    } else {
      FilledIsWelcome(e.c, before.c, p, cfg, q[n].kind.state);
      WelcomeIsServed(before, p, cfg, q[n]);
    }
  }

  lemma FilledKeeps(c: Cache, d: Cache, p: Case, cfg: Config)
    requires Filled(c, d, p, cfg)
    ensures c.resident.Keys <= d.resident.Keys && (c.infeasible ==> d.infeasible)
  {
  }

  lemma FilledIsWelcome(c: Cache, d: Cache, p: Case, cfg: Config, s: Id)
    requires Filled(c, d, p, cfg)
    ensures Welcome(d, p, cfg, s) <==> Welcome(c, p, cfg, s)
  {
  }

  /**
   An ADMIT of a VALID State the policy wants is never turned away in silence: after the instant the State is
   resident, or the run is marked infeasible, unless the cache is full and the State is one the policy evicts.
   */
  lemma ServedOrInfeasible(e: Engine, p: Case, cfg: Config, q: seq<Event>, now: real, i: nat)
    requires Ready(e.c, p) && Regular(cfg.host) && forall j :: 0 <= j < |q| ==> KnownNames(p, q[j].kind)
    requires i < |q| && q[i].kind.Admit?
    ensures var r := Instant(e, p, cfg, q, now).c; var s := q[i].kind.state;
            Welcome(r, p, cfg, s) && Safe(r, cfg, s) ==> s in r.resident || r.infeasible
  {
    hide PassOver, KnownNames, BeforeEnforcement, Instant, Regular, Enforce, PolicyReleases, TtlExpiries, Safe,
        Wanted, Filled, Ready, Welcome, Updated;
    AfterReleases(e, p, cfg, q, now);
    var filled := BeforeEnforcement(e, p, cfg, q, now);
    LabelsStay(filled, cfg, now);
    var r, s := Enforce(filled, cfg, now).c, q[i].kind.state;
    if Welcome(r, p, cfg, s) && Safe(r, cfg, s) {
      var at := AtAdmission(e, p, cfg, q, now);
      AdmissionsFill(at, p, cfg, q);
      WelcomeLabels(filled.c, r, p, cfg, s);
      FilledIsWelcome(at.c, filled.c, p, cfg, s);
      PassServes(at, p, cfg, q, i);
      if s in filled.c.resident {
        EnforcementKeepsSafe(filled, cfg, now, s);
      } else {
        if cfg.policy in {Lru, FixedTtl} {
          SafeHasRoom(r, cfg, s);
        }
      }
    }
  }

  lemma WelcomeLabels(c: Cache, d: Cache, p: Case, cfg: Config, s: Id)
    requires d.truth == c.truth && d.sessions == c.sessions
    ensures Welcome(d, p, cfg, s) <==> Welcome(c, p, cfg, s)
  {
  }

  lemma SafeHasRoom(c: Cache, cfg: Config, s: Id)
    requires Safe(c, cfg, s) && cfg.policy in {Lru, FixedTtl}
    ensures STATE_BYTES <= cfg.capacity
  {
  }

  /** One more State would not fit beside those the policy may not evict. */
  predicate Crowded(c: Cache, cfg: Config) {
    || (cfg.policy == SessionPinning && Bytes(c) + STATE_BYTES > cfg.capacity)
    || (cfg.policy == LifecycleB4 && ActiveBytes(c) + STATE_BYTES > cfg.capacity)
  }

  lemma RefusalIsCrowded(e: Engine, p: Case, cfg: Config, ev: Event)
    requires Ready(e.c, p) && KnownNames(p, ev.kind) && !e.c.infeasible
    ensures PassStep(e, p, cfg, Admitting, ev).c.infeasible ==> Crowded(e.c, cfg)
  {
    if ev.kind.Admit? {
      ProducingKeepsActive(e.c, ev.kind.state);
    }
    hide NewResident, ActiveResidents;
  }

  lemma ProducingKeepsActive(c: Cache, s: Id)
    requires s in c.truth
    ensures ActiveResidents(c.(truth := c.truth[s := c.truth[s].(produced := true)])) == ActiveResidents(c)
  {
  }

  lemma CrowdedStays(c: Cache, d: Cache, p: Case, cfg: Config)
    requires Filled(c, d, p, cfg) && Crowded(c, cfg) && c.resident.Keys <= c.truth.Keys
    ensures Crowded(d, cfg)
  {
    FilledHoldsMore(c, d, p, cfg);
    hide Filled, ActiveResidents;
    SubsetSmaller(c.resident.Keys, d.resident.Keys);
    SubsetSmaller(ActiveResidents(c), ActiveResidents(d));
  }

  lemma FilledHoldsMore(c: Cache, d: Cache, p: Case, cfg: Config)
    requires Filled(c, d, p, cfg) && c.resident.Keys <= c.truth.Keys
    ensures c.resident.Keys <= d.resident.Keys && ActiveResidents(c) <= ActiveResidents(d)
  {
  }

  lemma {:induction false} RefusalsAreCrowded(e: Engine, p: Case, cfg: Config, q: seq<Event>)
    requires Ready(e.c, p) && (forall i :: 0 <= i < |q| ==> KnownNames(p, q[i].kind)) && !e.c.infeasible
    ensures PassOver(e, p, cfg, Admitting, q).c.infeasible ==> Crowded(PassOver(e, p, cfg, Admitting, q).c, cfg)
  {
    hide PassStep, Ready, KnownNames, Filled, Crowded;
    if q != [] {
      var n := |q| - 1;
      var before := PassOver(e, p, cfg, Admitting, q[..n]);
      RefusalsAreCrowded(e, p, cfg, q[..n]);
      AdmissionFills(before, p, cfg, q[n]);
      ReadyInside(before.c, p);
      if !before.c.infeasible {
        RefusalIsCrowded(before, p, cfg, q[n]);
      }
      if Crowded(before.c, cfg) {
        CrowdedStays(before.c, PassOver(e, p, cfg, Admitting, q).c, p, cfg);
      }
    }
  }

  lemma ActiveSurvive(e: Engine, cfg: Config, now: real)
    requires e.c.resident.Keys <= e.c.truth.Keys && Regular(cfg.host) && cfg.policy == LifecycleB4
    ensures ActiveResidents(EvictDown(e, cfg, now).e.c) == ActiveResidents(e.c)
  {
    SurvivorsHaveLargestKeys(e, cfg, now);
    EvictedAreCandidates(e, cfg, now);
    hide EvictDown, KeyLe;
  }

  lemma EnforcementKeepsCrowded(e: Engine, cfg: Config, now: real)
    requires e.c.resident.Keys <= e.c.truth.Keys && Regular(cfg.host)
    requires e.c.infeasible ==> Crowded(e.c, cfg)
    ensures Enforce(e, cfg, now).c.infeasible ==> Crowded(Enforce(e, cfg, now).c, cfg)
  {
    hide EvictDown, NoteAdmissions, NoteAll, ActiveResidents;
    var start := Shrinking(e, cfg, now);
    ShrinkingMarks(e, cfg, now);
    if cfg.policy == LifecycleB4 {
      ActiveSurvive(start, cfg, now);
    }
  }

  lemma ShrinkingMarks(e: Engine, cfg: Config, now: real)
    ensures var start := Shrinking(e, cfg, now).c;
            && start == e.c.(infeasible := start.infeasible)
            && ActiveResidents(start) == ActiveResidents(e.c)
            && (start.infeasible ==> e.c.infeasible || (cfg.policy == LifecycleB4 && ActiveBytes(e.c) > cfg.capacity))
  {
  }

  /** A run is marked infeasible only when the States the policy may not evict leave no room for one more. */
  lemma InfeasibleIsCrowded(e: Engine, p: Case, cfg: Config, q: seq<Event>, now: real)
    requires Ready(e.c, p) && Regular(cfg.host) && forall j :: 0 <= j < |q| ==> KnownNames(p, q[j].kind)
    ensures var r := Instant(e, p, cfg, q, now).c; r.infeasible && !e.c.infeasible ==> Crowded(r, cfg)
  {
    hide PassOver, KnownNames, BeforeEnforcement, Instant, Regular, Enforce, PolicyReleases, TtlExpiries, Filled, Ready,
        Updated, Crowded;
    if !e.c.infeasible {
      UpdatedPasses(e, p, cfg, q);
      AfterReleases(e, p, cfg, q, now);
      AtAdmissionIs(e, p, cfg, q, now);
      RefusalsAreCrowded(AtAdmission(e, p, cfg, q, now), p, cfg, q);
      EnforcementKeepsCrowded(BeforeEnforcement(e, p, cfg, q, now), cfg, now);
    }
  }

  // ---------- the eviction order ----------

  /** Last touch, then admission ordinal, then name. */
  predicate Colder(x: Resident, y: Resident, a: Id, b: Id, h: Host) {
    || x.touched < y.touched
    || (x.touched == y.touched && x.ordinal < y.ordinal)
    || (x.touched == y.touched && x.ordinal == y.ordinal && h.le(a, b))
  }

  /** What the eviction order says of two residents, lifecycle first under B4. */
  lemma LeastIsColder(c: Cache, cfg: Config, v: Id, s: Id)
    requires v in c.resident && s in c.resident && v in c.truth && s in c.truth
    ensures KeyLe(c, cfg, v, s) <==>
              var l, m := c.truth[v].lifecycle, c.truth[s].lifecycle;
              if cfg.policy != LifecycleB4 || l == m then Colder(c.resident[v], c.resident[s], v, s, cfg.host)
              else l == Terminal || m == Active || (l == Speculative && m == Waiting)
  {
  }

  /** What is evicted precedes what stays in that order, and is not ACTIVE under B4. */
  lemma EvictedIsColder(e: Engine, cfg: Config, now: real, v: Id, s: Id)
    requires e.c.resident.Keys <= e.c.truth.Keys && Regular(cfg.host)
    requires v in e.c.resident && v !in Enforce(e, cfg, now).c.resident && s in Enforce(e, cfg, now).c.resident
    ensures s in e.c.resident && cfg.policy != SessionPinning
    ensures cfg.policy == LifecycleB4 ==> e.c.truth[v].lifecycle != Active
    ensures var l, m := e.c.truth[v].lifecycle, e.c.truth[s].lifecycle;
            if cfg.policy != LifecycleB4 || l == m then Colder(e.c.resident[v], e.c.resident[s], v, s, cfg.host)
            else l == Terminal || m == Active || (l == Speculative && m == Waiting)
  {
    hide EvictDown, NoteAdmissions, NoteAll, Note, KeyLe, Colder;
    LabelsStay(e, cfg, now);
    var start := Shrinking(e, cfg, now);
    SurvivorsHaveLargestKeys(start, cfg, now);
    EvictedAreCandidates(start, cfg, now);
    LeastIsColder(e.c, cfg, v, s);
    LeastIsColder(start.c, cfg, v, s);
  }

  // ---------- whole runs ----------

  lemma {:induction false} TurnsAdvance(l: Loop, p: Case, cfg: Config, times: seq<real>, n: nat)
    requires Turn(l, p, cfg, times)
    ensures var r := AfterTurns(l, p, cfg, times, n);
            var next := Upcoming(r.e, p, cfg, times, r.k, r.last);
            AfterTurns(l, p, cfg, times, n + 1) == if next.None? then r else Advance(r, p, cfg, times, next.value)
    decreases n
  {
    hide Upcoming, Advance, Turn;
    var next := Upcoming(l.e, p, cfg, times, l.k, l.last);
    if n > 0 && next.Some? {
      TurnsAdvance(Advance(l, p, cfg, times, next.value), p, cfg, times, n - 1);
    }
  }

  /** Turn n + 1 of a run handled an instant, and the events it handled. */
  ghost predicate Handles(p: Case, cfg: Config, n: nat, q: seq<Event>, now: real)
    requires WellFormedCase(p) && Configured(cfg)
  {
    var l := TurnsOf(p, cfg, n);
    && Ready(l.e.c, p)
    && (forall i :: 0 <= i < |q| ==> KnownNames(p, q[i].kind) && q[i] in p.events && q[i].time == now)
    && TurnsOf(p, cfg, n + 1).e == Instant(l.e, p, cfg, q, now) && TurnsOf(p, cfg, n + 1).last == now
    && Consumes(p, l.k, TurnsOf(p, cfg, n + 1).k, q)
  }

  /** The events of the next external instant, or none. */
  predicate Consumes(p: Case, k: nat, k': nat, q: seq<Event>) {
    var times := ExternalTimes(p.events);
    (k' == k && q == []) || (k < |times| && k' == k + 1 && q == Batch(p, times[k]))
  }

  lemma NoTurns(p: Case, cfg: Config)
    requires WellFormedCase(p) && Configured(cfg)
    ensures TurnsOf(p, cfg, 0) == FirstTurn(p) && FirstTurn(p).e.c.resident == map[]
  {
    hide WellFormedCase, FirstTurn;
    FirstTurnClock(p, cfg);
    StartsEmpty(p);
  }

  lemma StartsEmpty(p: Case)
    ensures FirstTurn(p).e.c.resident == map[]
  {
  }

  /** Each turn handles one instant, or the loop has stopped. */
  lemma OneMoreTurn(p: Case, cfg: Config, n: nat)
    requires WellFormedCase(p) && Configured(cfg)
    ensures TurnsOf(p, cfg, n + 1) == TurnsOf(p, cfg, n) || exists q, now :: Handles(p, cfg, n, q, now)
  {
    hide AfterTurns, WellFormedCase, Upcoming, Instant, Ready, KnownNames, Clock;
    FirstTurnClock(p, cfg);
    var times := ExternalTimes(p.events);
    TurnsAdvance(FirstTurn(p), p, cfg, times, n);
    var l := TurnsOf(p, cfg, n);
    var next := Upcoming(l.e, p, cfg, times, l.k, l.last);
    if next.Some? {
      BatchKnown(p, times, l.k, next.value);
      assert Handles(p, cfg, n, Events(p, times, l.k, next.value), next.value);
    }
  }

  /** After every turn of every run each resident State is tenable, whatever the capacity. */
  lemma {:induction false} TenableAfterEveryTurn(p: Case, cfg: Config, n: nat)
    requires WellFormedCase(p) && Configured(cfg)
    ensures AllTenable(TurnsOf(p, cfg, n).e.c, p, cfg)
  {
    hide WellFormedCase, Instant, TurnsOf, FirstTurn;
    if n == 0 {
      NoTurns(p, cfg);
    } else {
      hide AllTenable;
      TenableAfterEveryTurn(p, cfg, n - 1);
      OneMoreTurn(p, cfg, n - 1);
      if TurnsOf(p, cfg, n) != TurnsOf(p, cfg, n - 1) {
        var q, now :| Handles(p, cfg, n - 1, q, now);
        TenableIsValid(TurnsOf(p, cfg, n - 1).e.c, p, cfg);
        InstantLeavesTenable(TurnsOf(p, cfg, n - 1).e, p, cfg, q, now);
      }
    }
  }

  lemma TenableIsValid(c: Cache, p: Case, cfg: Config)
    requires AllTenable(c, p, cfg)
    ensures AllValid(c)
  {
  }

  predicate Invalidates(ev: Event, s: Id, t: real) {
    ev.kind == Invalidate(s) && ev.time == t
  }

  /** Turn n + 1 invalidated the State, or left its Session dead. */
  ghost predicate Unpinned(p: Case, cfg: Config, n: nat, s: Id)
    requires WellFormedCase(p) && Configured(cfg)
  {
    var r := TurnsOf(p, cfg, n + 1);
    || (exists ev :: ev in p.events && Invalidates(ev, s, r.last))
    || (s in p.states && p.states[s].session in r.e.c.sessions && !r.e.c.sessions[p.states[s].session])
  }

  /** A pinned State leaves before the Program end only when it is invalidated or its Session ends. */
  lemma {:induction false} PinnedUntilReleased(p: Case, cfg: Config, m: nat, n: nat, s: Id)
    requires WellFormedCase(p) && Configured(cfg) && cfg.policy == SessionPinning && m <= n
    requires s in TurnsOf(p, cfg, m).e.c.resident && s !in TurnsOf(p, cfg, n).e.c.resident
    ensures exists j :: m <= j < n && Unpinned(p, cfg, j, s)
    decreases n - m
  {
    hide TurnsOf, WellFormedCase, Instant;
    if s in TurnsOf(p, cfg, m + 1).e.c.resident {
      PinnedUntilReleased(p, cfg, m + 1, n, s);
    } else {
      OneMoreTurn(p, cfg, m);
      var q, now :| Handles(p, cfg, m, q, now);
      OneInstantUnpins(p, cfg, m, q, now, s);
    }
  }

  lemma OneInstantUnpins(p: Case, cfg: Config, m: nat, q: seq<Event>, now: real, s: Id)
    requires WellFormedCase(p) && Configured(cfg) && cfg.policy == SessionPinning && Handles(p, cfg, m, q, now)
    requires s in TurnsOf(p, cfg, m).e.c.resident && s !in TurnsOf(p, cfg, m + 1).e.c.resident
    ensures Unpinned(p, cfg, m, s)
  {
    hide TurnsOf, WellFormedCase, Instant;
    if s in InvalidatedIn(q) {
      var ev :| ev in q && ev.kind == Invalidate(s);
      assert Invalidates(ev, s, now);
    } else {
      WantedStays(TurnsOf(p, cfg, m).e, p, cfg, q, now, s);
    }
  }

  // ---------- the time to live ----------

  /** The stay began with this ADMIT, and under FIXED_TTL it is due to end one time to live after it. */
  ghost predicate BeganWith(p: Case, cfg: Config, r: Resident, s: Id, ev: Event) {
    && ev in p.events && ev.kind == Admit(s) && r.ordinal == Occurrence(p, ev)
    && r.expiry == if cfg.policy == FixedTtl then Some(ev.time + cfg.ttl) else None
  }

  ghost predicate Dated(c: Cache, p: Case, cfg: Config, now: real) {
    forall s :: s in c.resident ==> exists ev :: BeganWith(p, cfg, c.resident[s], s, ev) && ev.time <= now
  }

  lemma SameStay(c: Cache, d: Cache, p: Case, cfg: Config, t: real, now: real)
    requires Dated(c, p, cfg, t) && t <= now && d.resident.Keys <= c.resident.Keys
    requires forall s :: s in d.resident ==>
               d.resident[s].expiry == c.resident[s].expiry && d.resident[s].ordinal == c.resident[s].ordinal
    ensures Dated(d, p, cfg, now)
  {
    hide Occurrence;
    forall s | s in d.resident ensures exists ev :: BeganWith(p, cfg, d.resident[s], s, ev) && ev.time <= now {
      var ev :| BeganWith(p, cfg, c.resident[s], s, ev) && ev.time <= t;
      assert BeganWith(p, cfg, d.resident[s], s, ev);
    }
  }

  lemma AdmissionsKeepDated(e: Engine, p: Case, cfg: Config, q: seq<Event>, now: real)
    requires Ready(e.c, p) && Dated(e.c, p, cfg, now)
    requires forall i :: 0 <= i < |q| ==> KnownNames(p, q[i].kind) && q[i] in p.events && q[i].time == now
    ensures Dated(PassOver(e, p, cfg, Admitting, q).c, p, cfg, now)
  {
    hide PassOver, Ready, Accepts, Occurrence;
    UptoNothing(e, p, cfg, q);
    AdmissionsFill(e, p, cfg, q);
    var d := PassOver(e, p, cfg, Admitting, q).c;
    forall s | s in d.resident ensures exists ev :: BeganWith(p, cfg, d.resident[s], s, ev) && ev.time <= now {
      if s in e.c.resident {
        assert d.resident[s] == e.c.resident[s];
      } else {
        var i := AcceptedWhen(e, p, cfg, q, |q|, s);
        AcceptedStays(e, p, cfg, q, i, |q|);
        assert BeganWith(p, cfg, d.resident[s], s, q[i]);
      }
    }
  }

  lemma AtAdmissionIsDated(e: Engine, p: Case, cfg: Config, q: seq<Event>, t: real, now: real)
    requires Ready(e.c, p) && Regular(cfg.host) && Dated(e.c, p, cfg, t) && t <= now
    requires forall i :: 0 <= i < |q| ==> KnownNames(p, q[i].kind)
    ensures Dated(AtAdmission(e, p, cfg, q, now).c, p, cfg, now)
  {
    hide PassOver, KnownNames, PolicyReleases, TtlExpiries, Ready, Dated, Releasable, Expired, Updated;
    UpdatedPasses(e, p, cfg, q);
    var u := Updated(e, p, cfg, q);
    SameStay(e.c, u.c, p, cfg, t, now);
    ReleasedReady(u, p, cfg, now);
    var released := TtlExpiries(PolicyReleases(u, p, cfg, now), cfg, now);
    SameStay(u.c, released.c, p, cfg, now, now);
    PassPasses(released, p, cfg, Reusing, q);
    hide BeganWith;
    SameStay(released.c, PassOver(released, p, cfg, Reusing, q).c, p, cfg, now, now);
    AtAdmissionIs(e, p, cfg, q, now);
  }

  lemma AtAdmissionIs(e: Engine, p: Case, cfg: Config, q: seq<Event>, now: real)
    requires Ready(e.c, p) && Regular(cfg.host) && forall i :: 0 <= i < |q| ==> KnownNames(p, q[i].kind)
    ensures var released := TtlExpiries(PolicyReleases(Updated(e, p, cfg, q), p, cfg, now), cfg, now);
            && Ready(released.c, p)
            && AtAdmission(e, p, cfg, q, now).c == PassOver(released, p, cfg, Reusing, q).c
  {
    hide PassOver, PolicyReleases, TtlExpiries;
    ReleasedReady(Updated(e, p, cfg, q), p, cfg, now);
  }

  lemma InstantKeepsDated(e: Engine, p: Case, cfg: Config, q: seq<Event>, t: real, now: real)
    requires Ready(e.c, p) && Regular(cfg.host) && Dated(e.c, p, cfg, t) && t <= now
    requires forall i :: 0 <= i < |q| ==> KnownNames(p, q[i].kind) && q[i] in p.events && q[i].time == now
    ensures Dated(Instant(e, p, cfg, q, now).c, p, cfg, now)
  {
    hide PassOver, KnownNames, BeforeEnforcement, Instant, Enforce, PolicyReleases, TtlExpiries, Filled, Ready, Dated,
        Releasable, Expired;
    AtAdmissionIsDated(e, p, cfg, q, t, now);
    AdmissionsKeepDated(AtAdmission(e, p, cfg, q, now), p, cfg, q, now);
    AfterReleases(e, p, cfg, q, now);
    var filled := BeforeEnforcement(e, p, cfg, q, now);
    LabelsStay(filled, cfg, now);
    SameStay(filled.c, Enforce(filled, cfg, now).c, p, cfg, now, now);
  }

  /** After every turn each stay goes back to one ADMIT, and under FIXED_TTL its time to live has not run out. */
  lemma {:induction false} DatedAfterEveryTurn(p: Case, cfg: Config, n: nat)
    requires WellFormedCase(p) && Configured(cfg)
    ensures var l := TurnsOf(p, cfg, n);
            forall s :: s in l.e.c.resident ==> exists ev ::
              && BeganWith(p, cfg, l.e.c.resident[s], s, ev) && ev.time <= l.last
              && (cfg.policy == FixedTtl ==> l.last < ev.time + cfg.ttl)
  {
    hide TurnsOf, WellFormedCase, Clock, BeganWith;
    TurnsKeepDated(p, cfg, n);
    TurnsKeepClock(p, cfg, n);
    var l := TurnsOf(p, cfg, n);
    ClockSettles(l, p, cfg, ExternalTimes(p.events));
    forall s | s in l.e.c.resident
      ensures exists ev ::
                && BeganWith(p, cfg, l.e.c.resident[s], s, ev) && ev.time <= l.last
                && (cfg.policy == FixedTtl ==> l.last < ev.time + cfg.ttl)
    {
      var ev :| BeganWith(p, cfg, l.e.c.resident[s], s, ev) && ev.time <= l.last;
      StayNotOver(p, cfg, l.e.c, s, ev, l.last);
    }
  }

  lemma StayNotOver(p: Case, cfg: Config, c: Cache, s: Id, ev: Event, last: real)
    requires s in c.resident && BeganWith(p, cfg, c.resident[s], s, ev) && Settled(c, cfg, last)
    ensures cfg.policy == FixedTtl ==> last < ev.time + cfg.ttl
  {
    hide Occurrence;
  }

  lemma {:induction false} TurnsKeepDated(p: Case, cfg: Config, n: nat)
    requires WellFormedCase(p) && Configured(cfg)
    ensures Dated(TurnsOf(p, cfg, n).e.c, p, cfg, TurnsOf(p, cfg, n).last)
  {
    hide WellFormedCase, Instant, TurnsOf, FirstTurn;
    if n == 0 {
      NoTurns(p, cfg);
    } else {
      hide Dated;
      TurnsKeepDated(p, cfg, n - 1);
      OneMoreTurn(p, cfg, n - 1);
      if TurnsOf(p, cfg, n) != TurnsOf(p, cfg, n - 1) {
        var q, now :| Handles(p, cfg, n - 1, q, now);
        TurnsAreOrdered(p, cfg, n - 1);
        InstantKeepsDated(TurnsOf(p, cfg, n - 1).e, p, cfg, q, TurnsOf(p, cfg, n - 1).last, now);
      }
    }
  }

  lemma {:induction false} TurnsKeepClock(p: Case, cfg: Config, n: nat)
    requires WellFormedCase(p) && Configured(cfg)
    ensures Turn(TurnsOf(p, cfg, n), p, cfg, ExternalTimes(p.events))
    ensures Clock(TurnsOf(p, cfg, n), p, cfg, ExternalTimes(p.events))
  {
    hide WellFormedCase, Clock, Turn, Upcoming, TurnsOf, FirstTurn;
    if n == 0 {
      FirstTurnClock(p, cfg);
      NoTurns(p, cfg);
    } else {
      TurnsKeepClock(p, cfg, n - 1);
      NextTurn(p, cfg, n - 1);
    }
  }

  lemma ClockSettles(l: Loop, p: Case, cfg: Config, times: seq<real>)
    requires Clock(l, p, cfg, times)
    ensures Settled(l.e.c, cfg, l.last)
  {
  }

  lemma NextTurn(p: Case, cfg: Config, n: nat)
    requires WellFormedCase(p) && Configured(cfg) && Clock(TurnsOf(p, cfg, n), p, cfg, ExternalTimes(p.events))
    ensures Turn(TurnsOf(p, cfg, n + 1), p, cfg, ExternalTimes(p.events))
    ensures Clock(TurnsOf(p, cfg, n + 1), p, cfg, ExternalTimes(p.events))
    ensures TurnsOf(p, cfg, n).last <= TurnsOf(p, cfg, n + 1).last
  {
    hide AfterTurns, WellFormedCase, Upcoming, Clock, Turn;
    FirstTurnClock(p, cfg);
    var times := ExternalTimes(p.events);
    TurnsAdvance(FirstTurn(p), p, cfg, times, n);
    var l := TurnsOf(p, cfg, n);
    var next := Upcoming(l.e, p, cfg, times, l.k, l.last);
    if next.Some? {
      AdvanceKeepsClock(l, p, cfg, times, next.value);
    }
  }

  lemma TurnsAreOrdered(p: Case, cfg: Config, n: nat)
    requires WellFormedCase(p) && Configured(cfg)
    ensures TurnsOf(p, cfg, n).last <= TurnsOf(p, cfg, n + 1).last
  {
    hide TurnsOf, WellFormedCase, Clock;
    TurnsKeepClock(p, cfg, n);
    NextTurn(p, cfg, n);
  }
}
