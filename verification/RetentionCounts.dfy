/**
 What a run counts: its reuse opportunities and the ones the ground truth rejects are the same under every policy and
 capacity, and hits share what is left. Also when the ground truth itself is what the rest of the system says.
 */
module RetentionCounts {
  import opened Entities
  import opened Sorting
  import opened RetentionModel
  import opened RetentionRuns
  import opened RetentionTime
  import opened RetentionTruth
  import opened RetentionPolicyRuns

  // ---------- the counts of one instant ----------

  function Reuses(q: seq<Event>): nat {
    if q == [] then 0 else Reuses(q[..|q| - 1]) + if q[|q| - 1].kind.Reuse? then 1 else 0
  }

  /** A reuse of a State that is invalid by then, or that the event itself calls invalid. */
  predicate Refused(truth: TruthMap, gone: set<Id>, k: EventKind) {
    k.Reuse? && !(k.semanticValid && k.state in truth && truth[k.state].valid && k.state !in gone)
  }

  function RefusedReuses(truth: TruthMap, gone: set<Id>, q: seq<Event>): nat {
    if q == [] then 0
    else RefusedReuses(truth, gone, q[..|q| - 1]) + if Refused(truth, gone, q[|q| - 1].kind) then 1 else 0
  }

  /** What one reuse adds to the counters. */
  lemma ReuseCounts(e: Engine, cfg: Config, s: Id, semanticValid: bool, now: real)
    requires s in e.c.truth
    ensures var r, refused := Reused(e, cfg, s, semanticValid, now).c, !(semanticValid && e.c.truth[s].valid);
            && r.opportunities == e.c.opportunities + 1
            && r.rejections == e.c.rejections + (if refused then 1 else 0)
            && r.hits == e.c.hits + (if !refused && s in e.c.resident then 1 else 0)
  {
    hide Note, Cost;
  }

  /** The pass of reuses: every one is an opportunity, the refused ones are rejections, hits are among the others. */
  lemma {:induction false} ReusePassCounts(e: Engine, p: Case, cfg: Config, q: seq<Event>, truth: TruthMap,
      gone: set<Id>)
    requires Ready(e.c, p) && forall i :: 0 <= i < |q| ==> KnownNames(p, q[i].kind)
    requires truth.Keys == e.c.truth.Keys
    requires forall s :: s in truth ==> e.c.truth[s].valid == (truth[s].valid && s !in gone)
    ensures var r := PassOver(e, p, cfg, Reusing, q).c;
            && r.opportunities == e.c.opportunities + Reuses(q)
            && r.rejections == e.c.rejections + RefusedReuses(truth, gone, q)
            && e.c.hits <= r.hits <= e.c.hits + Reuses(q) - RefusedReuses(truth, gone, q)
  {
    hide PassStep, Ready, KnownNames, Passed;
    if q != [] {
      var n := |q| - 1;
      var before := PassOver(e, p, cfg, Reusing, q[..n]);
      ReusePassCounts(e, p, cfg, q[..n], truth, gone);
      PassPasses(e, p, cfg, Reusing, q[..n]);
      ValidityStays(e.c, before.c);
      ReuseStepCounts(before, p, cfg, q[n], truth, gone);
    }
  }

  lemma ValidityStays(c: Cache, d: Cache)
    requires Passed(c, d, Reusing, {})
    ensures d.truth.Keys == c.truth.Keys && forall s :: s in c.truth ==> d.truth[s].valid == c.truth[s].valid
  {
  }

  lemma ReuseStepCounts(e: Engine, p: Case, cfg: Config, ev: Event, truth: TruthMap, gone: set<Id>)
    requires Ready(e.c, p) && KnownNames(p, ev.kind)
    requires truth.Keys == e.c.truth.Keys
    requires forall s :: s in truth ==> e.c.truth[s].valid == (truth[s].valid && s !in gone)
    ensures var r, n, m := PassStep(e, p, cfg, Reusing, ev).c, (if ev.kind.Reuse? then 1 else 0),
              (if Refused(truth, gone, ev.kind) then 1 else 0);
            && r.opportunities == e.c.opportunities + n && r.rejections == e.c.rejections + m
            && e.c.hits <= r.hits <= e.c.hits + n - m
  {
    if ev.kind.Reuse? {
      ReuseCounts(e, cfg, ev.kind.state, ev.kind.semanticValid, ev.time);
    }
    hide Reused, Admission, Note;
  }

  /** A whole instant counts what its pass of reuses counts, against the truth before it and its invalidations. */
  lemma InstantCounts(e: Engine, p: Case, cfg: Config, q: seq<Event>, now: real)
    requires Ready(e.c, p) && Regular(cfg.host) && forall i :: 0 <= i < |q| ==> KnownNames(p, q[i].kind)
    ensures var r := Instant(e, p, cfg, q, now).c;
            && r.opportunities == e.c.opportunities + Reuses(q)
            && r.rejections == e.c.rejections + RefusedReuses(e.c.truth, InvalidatedIn(q), q)
            && e.c.hits <= r.hits <= e.c.hits + Reuses(q) - RefusedReuses(e.c.truth, InvalidatedIn(q), q)
  {
    hide PassOver, PolicyReleases, TtlExpiries, KnownNames, Passed, Filled, Enforce, BeforeEnforcement, Instant;
    hide Updated, Ready, Regular, Releasable, Expired;
    var u := Updated(e, p, cfg, q);
    UpdatedPasses(e, p, cfg, q);
    AfterReleases(e, p, cfg, q, now);
    var released := TtlExpiries(PolicyReleases(u, p, cfg, now), cfg, now);
    ReusePassCounts(released, p, cfg, q, e.c.truth, InvalidatedIn(q));
    FilledCounts(PassOver(released, p, cfg, Reusing, q).c, BeforeEnforcement(e, p, cfg, q, now).c, p, cfg);
    LabelsStay(BeforeEnforcement(e, p, cfg, q, now), cfg, now);
  }

  lemma FilledCounts(c: Cache, d: Cache, p: Case, cfg: Config)
    requires Filled(c, d, p, cfg)
    ensures SameCounts(c, d)
  {
  }

  // ---------- whole runs ----------

  /** Opportunities and rejections after the first k external instants, from the ground truth alone. */
  ghost function CountsAfter(p: Case, times: seq<real>, k: nat): (nat, nat)
    requires EventsKnown(p) && k <= |times|
  {
    if k == 0 then (0, 0) else
      var before, q := CountsAfter(p, times, k - 1), Batch(p, times[k - 1]);
      (before.0 + Reuses(q), before.1 + RefusedReuses(TruthAfter(p, times, k - 1), InvalidatedIn(q), q))
  }

  lemma NoneCounted(p: Case)
    requires EventsKnown(p)
    ensures CountsAfter(p, ExternalTimes(p.events), 0) == (0, 0)
  {
  }

  lemma CountsStep(p: Case, k: nat, k': nat, q: seq<Event>)
    requires EventsKnown(p) && Consumes(p, k, k', q)
    requires k <= |ExternalTimes(p.events)| && k' <= |ExternalTimes(p.events)|
    ensures var times := ExternalTimes(p.events); var before := CountsAfter(p, times, k);
            CountsAfter(p, times, k') ==
              (before.0 + Reuses(q), before.1 + RefusedReuses(TruthAfter(p, times, k), InvalidatedIn(q), q))
  {
    hide TruthAfter, EventsKnown, Batch, InvalidatedIn;
    var times := ExternalTimes(p.events);
    if k' == k {
      NothingCounted(TruthAfter(p, times, k), InvalidatedIn(q));
    }
  }

  lemma NothingCounted(truth: TruthMap, gone: set<Id>)
    ensures Reuses([]) == 0 && RefusedReuses(truth, gone, []) == 0
  {
  }

  /** After every turn the counters are those of the ground truth; hits and rejections are distinct opportunities. */
  lemma {:induction false} CountsAtEveryTurn(p: Case, cfg: Config, n: nat)
    requires WellFormedCase(p) && Configured(cfg)
    ensures EventsKnown(p) && TurnsOf(p, cfg, n).k <= |ExternalTimes(p.events)|
    ensures var l := TurnsOf(p, cfg, n);
            && (l.e.c.opportunities, l.e.c.rejections) == CountsAfter(p, ExternalTimes(p.events), l.k)
            && l.e.c.hits + l.e.c.rejections <= l.e.c.opportunities
  {
    hide WellFormedCase, Instant, TurnsOf, TruthAfter, EventsKnown, CountsAfter, Reuses, RefusedReuses, Consumes;
    TruthAtEveryInstant(p, cfg, n);
    if n == 0 {
      NoTurns(p, cfg);
      StartsAtZero(p);
      NoneCounted(p);
    } else {
      CountsAtEveryTurn(p, cfg, n - 1);
      TruthAtEveryInstant(p, cfg, n - 1);
      OneMoreTurn(p, cfg, n - 1);
      if TurnsOf(p, cfg, n) != TurnsOf(p, cfg, n - 1) {
        var q, now :| Handles(p, cfg, n - 1, q, now);
        var l := TurnsOf(p, cfg, n - 1);
        CaseHost(p, cfg);
        InstantCounts(l.e, p, cfg, q, now);
        CountsStep(p, l.k, TurnsOf(p, cfg, n).k, q);
      }
    }
  }

  lemma CaseHost(p: Case, cfg: Config)
    requires Configured(cfg)
    ensures Regular(cfg.host)
  {
  }

  lemma StartsAtZero(p: Case)
    ensures var c := FirstTurn(p).e.c; c.opportunities == 0 && c.rejections == 0 && c.hits == 0 && FirstTurn(p).k == 0
  {
  }

  /** At equal external instants two runs have seen the same opportunities and the same rejections. */
  lemma CountsIgnorePolicy(p: Case, a: Config, b: Config, m: nat, n: nat)
    requires WellFormedCase(p) && Configured(a) && Configured(b)
    requires TurnsOf(p, a, m).k == TurnsOf(p, b, n).k
    ensures TurnsOf(p, a, m).e.c.opportunities == TurnsOf(p, b, n).e.c.opportunities
    ensures TurnsOf(p, a, m).e.c.rejections == TurnsOf(p, b, n).e.c.rejections
  {
    hide TurnsOf, WellFormedCase, CountsAfter;
    CountsAtEveryTurn(p, a, m);
    CountsAtEveryTurn(p, b, n);
  }

  // ---------- the ground truth and the Program ----------

  function Strength(l: ContinuationLifecycle): nat {
    match l
    case LifeActive => 3
    case LifeWaiting => 2
    case LifeSpeculative => 1
    case _ => 0
  }

  function ClassStrength(s: StateLifecycle): nat {
    match s
    case Active => 3
    case Waiting => 2
    case Speculative => 1
    case Terminal => 0
  }

  /** A State's retention class is the strongest of its dependents. */
  lemma StrongestDependent(dependents: seq<ContinuationLifecycle>)
    ensures forall l :: l in dependents ==> Strength(l) <= ClassStrength(DeriveLifecycle(dependents))
    ensures DeriveLifecycle(dependents) != Terminal ==>
              exists l :: l in dependents && Strength(l) == ClassStrength(DeriveLifecycle(dependents))
  {
  }

  lemma {:induction false} FirstAdmitExists(p: Case, s: Id, events: seq<Event>) returns (a: Event)
    requires exists e :: e in events && e.kind == Admit(s)
    ensures a in events && a.kind == Admit(s) && forall b :: b in events && b.kind == a.kind ==> !Precedes(b, a)
    decreases |events|
  {
    var n := |events| - 1;
    var rest, last := events[..n], events[n];
    assert events == rest + [last];
    if exists e :: e in rest && e.kind == Admit(s) {
      a := FirstAdmitExists(p, s, rest);
      if last.kind == Admit(s) && Precedes(last, a) {
        a := last;
      }
    } else {
      a := last;
    }
  }

  /** In a well-formed case a State is reused or invalidated only at a later time than one of its ADMITs. */
  lemma AdmittedEarlier(p: Case, e: Event)
    requires WellFormedCase(p) && e in p.events && (e.kind.Reuse? || e.kind.Invalidate?)
    ensures exists a :: a in p.events && a.kind == Admit(e.kind.state) && a.time < e.time
  {
    var s := e.kind.state;
    var a := FirstAdmitExists(p, s, p.events);
    assert AdmittedBefore(p, e);
    assert !Precedes(e, a);
  }
}
