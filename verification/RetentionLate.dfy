/**
 When LRU inclusion survives an instant. An ADMIT is late when only the larger cache still holds its State:
 the larger cache skips it and the smaller one takes the State in with a fresh interval. That ends the
 inclusion exactly if the State stays, which it does when fewer later ADMITs of the instant than the smaller
 cache has slots are accepted.
 */
module RetentionLate {
  import opened Entities
  import opened Sorting
  import opened RetentionModel
  import opened RetentionRuns
  import opened RetentionSafety
  import opened RetentionTime
  import opened RetentionTruth
  import opened RetentionCapacity
  import opened RetentionInclusion

  // ---------- admission ordinals grow with time ----------

  lemma OccurrenceGrows(p: Case, d: Event, e: Event)
    requires d in p.events && d.kind.Admit? && Precedes(d, e)
    ensures Occurrence(p, d) < Occurrence(p, e)
  {
    var earlier := set a | a in p.events && a.kind.Admit? && Precedes(a, d);
    var later := set a | a in p.events && a.kind.Admit? && Precedes(a, e);
    assert d in later && d !in earlier;
    SubsetSmaller(earlier, later);
  }

  /** Every resident was admitted before any ADMIT after `t`. */
  ghost predicate AdmittedBy(c: Cache, p: Case, t: real) {
    forall s, ev :: s in c.resident && ev in p.events && ev.kind.Admit? && ev.time > t ==>
      c.resident[s].ordinal < Occurrence(p, ev)
  }

  /** What is resident was, with the same ordinal. */
  ghost predicate KeepsOrdinals(c: Cache, d: Cache) {
    forall s :: s in d.resident ==> s in c.resident && d.resident[s].ordinal == c.resident[s].ordinal
  }

  lemma KeptAdmittedBy(c: Cache, d: Cache, p: Case, t: real)
    requires AdmittedBy(c, p, t) && KeepsOrdinals(c, d)
    ensures AdmittedBy(d, p, t)
  {
  }

  lemma StepKeepsOrdinals(e: Engine, p: Case, cfg: Config, pass: Pass, ev: Event)
    requires Ready(e.c, p) && KnownNames(p, ev.kind) && pass != Admitting
    ensures KeepsOrdinals(e.c, PassStep(e, p, cfg, pass, ev).c)
  {
    hide Note, DeriveLifecycle, Cost, Reused, Admission;
    if ev.kind.Reuse? {
      ReusedCache(e, cfg, ev.kind.state, ev.kind.semanticValid, ev.time);
    }
  }

  lemma {:induction false} PassKeepsOrdinals(e: Engine, p: Case, cfg: Config, pass: Pass, q: seq<Event>)
    requires Ready(e.c, p) && (forall i :: 0 <= i < |q| ==> KnownNames(p, q[i].kind)) && pass != Admitting
    ensures KeepsOrdinals(e.c, PassOver(e, p, cfg, pass, q).c)
  {
    hide PassStep, Ready;
    if q != [] {
      var n := |q| - 1;
      PassKeepsOrdinals(e, p, cfg, pass, q[..n]);
      StepKeepsOrdinals(PassOver(e, p, cfg, pass, q[..n]), p, cfg, pass, q[n]);
    }
  }

  lemma AtAdmissionKeepsOrdinals(e: Engine, p: Case, cfg: Config, q: seq<Event>, now: real)
    requires Ready(e.c, p) && Regular(cfg.host) && forall i :: 0 <= i < |q| ==> KnownNames(p, q[i].kind)
    ensures KeepsOrdinals(e.c, AtAdmission(e, p, cfg, q, now).c)
  {
    hide PassOver, PolicyReleases, TtlExpiries, BeforeEnforcement, Ready;
    PassKeepsOrdinals(e, p, cfg, Invalidating, q);
    var invalidated := PassOver(e, p, cfg, Invalidating, q);
    PassKeepsOrdinals(invalidated, p, cfg, Updating, q);
    var updated := PassOver(invalidated, p, cfg, Updating, q);
    ReleasedReady(updated, p, cfg, now);
    PassKeepsOrdinals(TtlExpiries(PolicyReleases(updated, p, cfg, now), cfg, now), p, cfg, Reusing, q);
  }

  lemma AdmissionStepOrdinals(e: Engine, p: Case, cfg: Config, ev: Event)
    requires Ready(e.c, p) && KnownNames(p, ev.kind)
    ensures var r := PassStep(e, p, cfg, Admitting, ev).c;
            forall s :: s in r.resident ==>
              || (s in e.c.resident && r.resident[s] == e.c.resident[s])
              || (ev.kind.Admit? && r.resident[s].ordinal == Occurrence(p, ev))
  {
    hide Note, Judge, Occurrence;
  }

  lemma {:induction false} AdmitPassAdmittedBy(e: Engine, p: Case, cfg: Config, q: seq<Event>, now: real)
    requires Ready(e.c, p) && AdmittedBy(e.c, p, now)
    requires forall i :: 0 <= i < |q| ==> KnownNames(p, q[i].kind) && q[i].time == now && q[i] in p.events
    ensures AdmittedBy(PassOver(e, p, cfg, Admitting, q).c, p, now)
  {
    hide PassStep, Ready, KnownNames;
    if q != [] {
      var n := |q| - 1;
      AdmitPassAdmittedBy(e, p, cfg, q[..n], now);
      var before := PassOver(e, p, cfg, Admitting, q[..n]);
      AdmissionStepOrdinals(before, p, cfg, q[n]);
      hide Occurrence;
      forall ev | ev in p.events && ev.kind.Admit? && ev.time > now && q[n].kind.Admit?
        ensures Occurrence(p, q[n]) < Occurrence(p, ev)
      {
        OccurrenceGrows(p, q[n], ev);
      }
    }
  }

  lemma AdmittedLater(c: Cache, p: Case, t: real, u: real)
    requires AdmittedBy(c, p, t) && t <= u
    ensures AdmittedBy(c, p, u)
  {
  }

  lemma InstantAdmittedBy(e: Engine, p: Case, cfg: Config, q: seq<Event>, t: real, now: real)
    requires Ready(e.c, p) && Regular(cfg.host) && AdmittedBy(e.c, p, t) && t <= now
    requires forall i :: 0 <= i < |q| ==> KnownNames(p, q[i].kind) && q[i].time == now && q[i] in p.events
    ensures AdmittedBy(Instant(e, p, cfg, q, now).c, p, now)
  {
    hide AdmittedBy, KeepsOrdinals, AtAdmission, Enforce, PassOver, BeforeEnforcement, Ready;
    AtAdmissionKeepsOrdinals(e, p, cfg, q, now);
    var at := AtAdmission(e, p, cfg, q, now);
    KeptAdmittedBy(e.c, at.c, p, t);
    AdmittedLater(at.c, p, t, now);
    AdmitPassAdmittedBy(at, p, cfg, q, now);
    var filled := BeforeEnforcement(e, p, cfg, q, now);
    ReadyInside(filled.c, p);
    KeptAdmittedBy(filled.c, Enforce(filled, cfg, now).c, p, now);
  }

  // ---------- the ADMITs of an instant, one by one ----------

  ghost predicate Knows(e: Engine, p: Case, q: seq<Event>) {
    Ready(e.c, p) && forall i :: 0 <= i < |q| ==> KnownNames(p, q[i].kind)
  }

  /** The engine after the first n events of the pass of admissions. */
  ghost function Upto(e: Engine, p: Case, cfg: Config, q: seq<Event>, n: nat): (r: Engine)
    requires Knows(e, p, q) && n <= |q|
    ensures Ready(r.c, p)
  {
    PassOver(e, p, cfg, Admitting, q[..n])
  }

  /** The n-th event is an ADMIT whose State the cache takes in. */
  ghost predicate Accepts(e: Engine, p: Case, cfg: Config, q: seq<Event>, n: nat)
    requires Knows(e, p, q) && n < |q|
  {
    q[n].kind.Admit? && Admits(Upto(e, p, cfg, q, n), p, cfg, q[n])
  }

  /** What one event of the pass does to the truth and to the residents, and that it does nothing else. */
  ghost predicate Moves(c: Cache, d: Cache, p: Case, cfg: Config, ev: Event, accepted: bool) {
    && d.hits == c.hits && d.useful == c.useful && d.opportunities == c.opportunities && d.rejections == c.rejections
    && d.sessions == c.sessions && (c.infeasible ==> d.infeasible)
    && (ev.kind.Admit? ==> ev.kind.state in c.truth)
    && d.truth == (if ev.kind.Admit? then c.truth[ev.kind.state := c.truth[ev.kind.state].(produced := true)]
       else c.truth)
    && (if accepted
        then ev.kind.Admit? && ev.kind.state !in c.resident &&
            d.resident == c.resident[ev.kind.state := NewResident(p, cfg, ev)]
        else d.resident == c.resident)
  }

  lemma AdmissionMoves(e: Engine, p: Case, cfg: Config, ev: Event)
    requires Ready(e.c, p) && KnownNames(p, ev.kind)
    ensures Moves(e.c, PassStep(e, p, cfg, Admitting, ev).c, p, cfg, ev, ev.kind.Admit? && Admits(e, p, cfg, ev))
  {
    hide NewResident, Judge;
  }

  lemma UptoMoves(e: Engine, p: Case, cfg: Config, q: seq<Event>, n: nat)
    requires Knows(e, p, q) && n < |q|
    ensures Moves(Upto(e, p, cfg, q, n).c, Upto(e, p, cfg, q, n + 1).c, p, cfg, q[n], Accepts(e, p, cfg, q, n))
  {
    hide Moves, Admits, Ready, KnownNames, PassStep;
    assert q[..n + 1][..n] == q[..n];
    AdmissionMoves(Upto(e, p, cfg, q, n), p, cfg, q[n]);
  }

  /** A pass of admissions drops nothing. */
  lemma {:induction false} UptoKeeps(e: Engine, p: Case, cfg: Config, q: seq<Event>, m: nat, n: nat)
    requires Knows(e, p, q) && m <= n <= |q|
    ensures var c, d := Upto(e, p, cfg, q, m).c, Upto(e, p, cfg, q, n).c;
            forall s :: s in c.resident ==> s in d.resident && d.resident[s] == c.resident[s]
    decreases n - m
  {
    hide Knows, Upto, Accepts, NewResident;
    if m < n {
      UptoMoves(e, p, cfg, q, m);
      UptoKeeps(e, p, cfg, q, m + 1, n);
    }
  }

  lemma UptoNothing(e: Engine, p: Case, cfg: Config, q: seq<Event>)
    requires Knows(e, p, q)
    ensures Upto(e, p, cfg, q, 0) == e && Upto(e, p, cfg, q, |q|) == PassOver(e, p, cfg, Admitting, q)
  {
    assert q[..|q|] == q;
  }

  /** What was not resident before was accepted on the way. */
  lemma {:induction false} AcceptedWhen(e: Engine, p: Case, cfg: Config, q: seq<Event>, n: nat, s: Id) returns (i: nat)
    requires Knows(e, p, q) && n <= |q| && s in Upto(e, p, cfg, q, n).c.resident && s !in e.c.resident
    ensures i < n && Accepts(e, p, cfg, q, i) && q[i].kind.state == s
    ensures Upto(e, p, cfg, q, n).c.resident[s] == NewResident(p, cfg, q[i])
    decreases n
  {
    hide Knows, Upto, Accepts, NewResident, PassOver;
    UptoNothing(e, p, cfg, q);
    UptoMoves(e, p, cfg, q, n - 1);
    if s in Upto(e, p, cfg, q, n - 1).c.resident {
      i := AcceptedWhen(e, p, cfg, q, n - 1, s);
    } else {
      i := n - 1;
    }
  }

  lemma AcceptedStays(e: Engine, p: Case, cfg: Config, q: seq<Event>, i: nat, n: nat)
    requires Knows(e, p, q) && i < n <= |q| && Accepts(e, p, cfg, q, i)
    ensures q[i].kind.Admit? && q[i].kind.state in Upto(e, p, cfg, q, n).c.resident
    ensures Upto(e, p, cfg, q, n).c.resident[q[i].kind.state] == NewResident(p, cfg, q[i])
    ensures q[i].kind.state !in Upto(e, p, cfg, q, i).c.resident
  {
    UptoMoves(e, p, cfg, q, i);
    UptoKeeps(e, p, cfg, q, i + 1, n);
    hide Knows, Upto, Accepts, NewResident;
  }

  // ---------- keys ----------

  /** The ADMITs of one instant, in the order of their ordinals. */
  ghost predicate Rising(p: Case, q: seq<Event>, now: real) {
    && (forall i :: 0 <= i < |q| ==> q[i].time == now)
    && forall i, j :: 0 <= i < j < |q| && q[i].kind.Admit? && q[j].kind.Admit? ==>
       Occurrence(p, q[i]) < Occurrence(p, q[j])
  }

  /** Every resident was touched by now and admitted before each ADMIT of the list. */
  ghost predicate Older(c: Cache, p: Case, q: seq<Event>, now: real) {
    forall s :: s in c.resident ==>
      && c.resident[s].touched <= now
      && forall j :: 0 <= j < |q| && q[j].kind.Admit? ==> c.resident[s].ordinal < Occurrence(p, q[j])
  }

  /** The residents with a larger key. */
  ghost function Above(c: Cache, cfg: Config, s: Id): set<Id>
    requires c.resident.Keys <= c.truth.Keys && s in c.resident
  {
    set u | u in c.resident && u != s && KeyLe(c, cfg, s, u)
  }

  /** An LRU enforcement keeps a State exactly when fewer residents than there are slots have larger keys. */
  lemma SurvivesByRank(e: Engine, cfg: Config, now: real, s: Id)
    requires e.c.resident.Keys <= e.c.truth.Keys && Regular(cfg.host) && cfg.policy == Lru && s in e.c.resident
    ensures s in EvictDown(e, cfg, now).e.c.resident <==> |Above(e.c, cfg, s)| < Slots(cfg)
  {
    hide Slots, EvictDown, Above, KeepsLargest;
    SurvivorsHaveLargestKeys(e, cfg, now);
    EvictDownCounts(e, cfg, now);
    var r := EvictDown(e, cfg, now);
    RankAmongSurvivors(e.c, cfg, s, r.evicted, r.e.c.resident.Keys);
  }

  lemma RankAmongSurvivors(c: Cache, cfg: Config, s: Id, evicted: seq<Id>, survivors: set<Id>)
    requires c.resident.Keys <= c.truth.Keys && Regular(cfg.host) && s in c.resident
    requires KeepsLargest(c, cfg, evicted, survivors)
    ensures s in survivors ==> |Above(c, cfg, s)| < |survivors|
    ensures s !in survivors ==> |survivors| <= |Above(c, cfg, s)| && |survivors| < |c.resident|
  {
    hide KeyLe, Regular;
    if s in survivors {
      forall u | u in Above(c, cfg, s) ensures u in survivors {
        if u in evicted {
          KeyLeOneWay(c, cfg, s, u);
        }
      }
      SubsetSmaller(Above(c, cfg, s) + {s}, survivors);
    } else {
      assert s in evicted;
      SubsetSmaller(survivors, Above(c, cfg, s));
      SubsetSmaller(survivors + {s}, c.resident.Keys);
    }
  }

  lemma KeyLeOneWay(c: Cache, cfg: Config, s: Id, u: Id)
    requires Regular(cfg.host) && s in c.resident && u in c.resident && s in c.truth && u in c.truth
    requires KeyLe(c, cfg, s, u) && KeyLe(c, cfg, u, s)
    ensures s == u
  {
  }

  /** Everything the smaller cache holds the larger one holds, with the same interval and recency. */
  ghost predicate Inside(a: Cache, b: Cache) {
    forall s :: s in a.resident ==> s in b.resident && a.resident[s] == b.resident[s]
  }

  /** The States accepted by later ADMITs of the instant. */
  ghost function Newer(e: Engine, p: Case, cfg: Config, q: seq<Event>, i: nat): set<Id>
    requires Knows(e, p, q)
  {
    set j | i < j < |q| && Accepts(e, p, cfg, q, j) :: q[j].kind.state
  }

  lemma NewerMeans(e: Engine, p: Case, cfg: Config, q: seq<Event>, i: nat, u: Id)
    requires Knows(e, p, q)
    ensures u in Newer(e, p, cfg, q, i) <==> exists j :: i < j < |q| && Accepts(e, p, cfg, q, j) && q[j].kind.state == u
  {
    hide Accepts, Knows;
  }

  /** A State that was there before the instant is below every State the instant accepts. */
  lemma OldIsBelow(e: Engine, p: Case, cfg: Config, q: seq<Event>, now: real, s: Id, i: nat)
    requires Knows(e, p, q) && cfg.policy == Lru && Rising(p, q, now) && Older(e.c, p, q, now)
    requires s in e.c.resident && i < |q| && Accepts(e, p, cfg, q, i)
    ensures var c := Upto(e, p, cfg, q, |q|).c;
            && s in c.resident && q[i].kind.state in c.resident && s != q[i].kind.state
            && c.resident.Keys <= c.truth.Keys
            && KeyLe(c, cfg, s, q[i].kind.state) && !KeyLe(c, cfg, q[i].kind.state, s)
  {
    UptoNothing(e, p, cfg, q);
    UptoKeeps(e, p, cfg, q, 0, |q|);
    UptoKeeps(e, p, cfg, q, 0, i);
    AcceptedStays(e, p, cfg, q, i, |q|);
    ReadyInside(Upto(e, p, cfg, q, |q|).c, p);
    hide Knows, Upto, Accepts, Occurrence;
  }

  /** Of two States accepted in one instant the later one has the larger key. */
  lemma LaterIsAbove(e: Engine, p: Case, cfg: Config, q: seq<Event>, now: real, i: nat, j: nat)
    requires Knows(e, p, q) && cfg.policy == Lru && Rising(p, q, now) && i < j < |q|
    requires Accepts(e, p, cfg, q, i) && Accepts(e, p, cfg, q, j)
    ensures var c, s, u := Upto(e, p, cfg, q, |q|).c, q[i].kind.state, q[j].kind.state;
            && s in c.resident && u in c.resident && s != u && c.resident.Keys <= c.truth.Keys
            && KeyLe(c, cfg, s, u) && !KeyLe(c, cfg, u, s)
  {
    AcceptedStays(e, p, cfg, q, i, j);
    AcceptedStays(e, p, cfg, q, i, |q|);
    AcceptedStays(e, p, cfg, q, j, |q|);
    ReadyInside(Upto(e, p, cfg, q, |q|).c, p);
    hide Knows, Upto, Accepts, Occurrence;
  }

  /** Above an accepted State are exactly the States accepted after it. */
  lemma AboveIsNewer(e: Engine, p: Case, cfg: Config, q: seq<Event>, now: real, i: nat)
    requires Knows(e, p, q) && cfg.policy == Lru && Rising(p, q, now) && Older(e.c, p, q, now)
    requires i < |q| && Accepts(e, p, cfg, q, i)
    ensures var c := Upto(e, p, cfg, q, |q|).c;
            && c.resident.Keys <= c.truth.Keys && q[i].kind.state in c.resident
            && Above(c, cfg, q[i].kind.state) == Newer(e, p, cfg, q, i)
  {
    AcceptedStays(e, p, cfg, q, i, |q|);
    ReadyInside(Upto(e, p, cfg, q, |q|).c, p);
    hide Knows, Upto, Accepts, Rising, Older, Newer, KeyLe;
    var c, s := Upto(e, p, cfg, q, |q|).c, q[i].kind.state;
    forall u ensures u in Above(c, cfg, s) <==> u in Newer(e, p, cfg, q, i) {
      NewerMeans(e, p, cfg, q, i, u);
      if u in Newer(e, p, cfg, q, i) {
        var j :| i < j < |q| && Accepts(e, p, cfg, q, j) && q[j].kind.state == u;
        LaterIsAbove(e, p, cfg, q, now, i, j);
      }
      if u in Above(c, cfg, s) {
        if u in e.c.resident {
          OldIsBelow(e, p, cfg, q, now, u, i);
        } else {
          var j := AcceptedWhen(e, p, cfg, q, |q|, u);
          if j < i {
            LaterIsAbove(e, p, cfg, q, now, j, i);
          }
        }
      }
    }
  }

  // ---------- the two caches ----------

  lemma AdmitsLru(e: Engine, p: Case, cfg: Config, ev: Event)
    requires Ready(e.c, p) && KnownNames(p, ev.kind) && ev.kind.Admit? && cfg.policy == Lru
    ensures Admits(e, p, cfg, ev) <==>
            ev.kind.state in e.c.truth && e.c.truth[ev.kind.state].valid && ev.kind.state !in e.c.resident &&
                Slots(cfg) > 0
  {
    SizeBySlots(cfg);
    hide Slots;
  }

  /** Two engines as the ADMITs of an instant find them, the smaller one with some slot. */
  ghost predicate Together(a: Engine, b: Engine, p: Case, small: Config, large: Config, q: seq<Event>) {
    LruPair(small, large) && Knows(a, p, q) && Knows(b, p, q) && Included(a.c, b.c) && Slots(small) > 0
  }

  /** During the pass the truths agree, the larger cache holds every State the smaller one does, and
      nothing is counted. */
  ghost predicate Nested(c: Cache, d: Cache) {
    && c.resident.Keys <= d.resident.Keys && c.truth == d.truth
    && c.hits <= d.hits && c.useful <= d.useful && c.opportunities == d.opportunities
  }

  lemma NestedMoves(a: Cache, b: Cache, a': Cache, b': Cache, p: Case, small: Config, large: Config, ev: Event,
      x: bool, y: bool)
    requires Nested(a, b) && Moves(a, a', p, small, ev, x) && Moves(b, b', p, large, ev, y)
    requires x ==> y || ev.kind.state in b.resident
    ensures Nested(a', b')
  {
    hide NewResident;
  }

  /** The smaller cache accepts what the larger one accepts and what is late, and nothing else. */
  lemma BothAdmit(a: Engine, b: Engine, p: Case, small: Config, large: Config, ev: Event)
    requires LruPair(small, large) && Slots(small) > 0 && Nested(a.c, b.c)
    requires Ready(a.c, p) && Ready(b.c, p) && KnownNames(p, ev.kind) && ev.kind.Admit?
    ensures Admits(a, p, small, ev) <==> Admits(b, p, large, ev) || Late(a.c, b.c, small, ev.kind)
  {
    AdmitsLru(a, p, small, ev);
    AdmitsLru(b, p, large, ev);
    MoreSlots(small, large);
    hide Admits, Slots;
  }

  lemma {:induction false} UptoNested(a: Engine, b: Engine, p: Case, small: Config, large: Config, q: seq<Event>,
      n: nat)
    requires Together(a, b, p, small, large, q) && n <= |q|
    ensures Nested(Upto(a, p, small, q, n).c, Upto(b, p, large, q, n).c)
    decreases n
  {
    hide Upto, Admits, Ready, KnownNames, Slots, Moves, Late;
    UptoNothing(a, p, small, q);
    UptoNothing(b, p, large, q);
    if n > 0 {
      hide Nested, Included;
      UptoNested(a, b, p, small, large, q, n - 1);
      var a', b' := Upto(a, p, small, q, n - 1), Upto(b, p, large, q, n - 1);
      UptoMoves(a, p, small, q, n - 1);
      UptoMoves(b, p, large, q, n - 1);
      if q[n - 1].kind.Admit? {
        BothAdmit(a', b', p, small, large, q[n - 1]);
        LateIsLarge(a'.c, b'.c, small, q[n - 1].kind);
      }
      NestedMoves(a'.c, b'.c, Upto(a, p, small, q, n).c, Upto(b, p, large, q, n).c, p, small, large, q[n - 1],
          Accepts(a, p, small, q, n - 1), Accepts(b, p, large, q, n - 1));
    }
  }

  lemma LateIsLarge(c: Cache, d: Cache, small: Config, k: EventKind)
    ensures Late(c, d, small, k) ==> k.Admit? && k.state in d.resident
  {
  }

  /** The n-th event is late. */
  ghost predicate LateTurn(a: Engine, b: Engine, p: Case, small: Config, large: Config, q: seq<Event>, n: nat)
    requires Knows(a, p, q) && Knows(b, p, q) && n < |q|
  {
    Late(Upto(a, p, small, q, n).c, Upto(b, p, large, q, n).c, small, q[n].kind)
  }

  lemma SmallAccepts(a: Engine, b: Engine, p: Case, small: Config, large: Config, q: seq<Event>, n: nat)
    requires Together(a, b, p, small, large, q) && n < |q|
    ensures LateTurn(a, b, p, small, large, q, n) ==>
            q[n].kind.Admit? && q[n].kind.state in Upto(b, p, large, q, n).c.resident
    ensures Accepts(a, p, small, q, n) <==> Accepts(b, p, large, q, n) || LateTurn(a, b, p, small, large, q, n)
  {
    hide Upto, Admits, Slots, Ready, KnownNames, Nested, Late, Included;
    UptoNested(a, b, p, small, large, q, n);
    LateIsLarge(Upto(a, p, small, q, n).c, Upto(b, p, large, q, n).c, small, q[n].kind);
    if q[n].kind.Admit? {
      BothAdmit(Upto(a, p, small, q, n), Upto(b, p, large, q, n), p, small, large, q[n]);
    }
  }

  lemma NewerNested(a: Engine, b: Engine, p: Case, small: Config, large: Config, q: seq<Event>, i: nat)
    requires Together(a, b, p, small, large, q)
    ensures Newer(b, p, large, q, i) <= Newer(a, p, small, q, i)
  {
    hide Upto, Admits, Newer, LateTurn, Ready, KnownNames, Included;
    forall u | u in Newer(b, p, large, q, i) ensures u in Newer(a, p, small, q, i) {
      NewerMeans(b, p, large, q, i, u);
      NewerMeans(a, p, small, q, i, u);
      var j :| i < j < |q| && Accepts(b, p, large, q, j) && q[j].kind.state == u;
      SmallAccepts(a, b, p, small, large, q, j);
    }
  }

  /** Some ADMIT of the instant is late, and the smaller cache still holds its State when the instant ends. */
  ghost predicate Lasting(a: Engine, b: Engine, p: Case, small: Config, large: Config, q: seq<Event>)
    requires Knows(a, p, q) && Knows(b, p, q)
  {
    exists i :: 0 <= i < |q| && LateTurn(a, b, p, small, large, q, i) && |Newer(a, p, small, q, i)| < Slots(small)
  }

  lemma OlderInSmall(a: Cache, b: Cache, p: Case, q: seq<Event>, now: real)
    requires Included(a, b) && Older(b, p, q, now)
    ensures Older(a, p, q, now)
  {
    hide Occurrence;
  }

  /** Whatever is resident when an ADMIT comes has a smaller ordinal. */
  lemma OrdinalsBefore(e: Engine, p: Case, cfg: Config, q: seq<Event>, now: real, i: nat, s: Id)
    requires Knows(e, p, q) && Rising(p, q, now) && Older(e.c, p, q, now)
    requires i < |q| && q[i].kind.Admit? && s in Upto(e, p, cfg, q, i).c.resident
    ensures Upto(e, p, cfg, q, i).c.resident[s].ordinal < Occurrence(p, q[i])
  {
    if s in e.c.resident {
      UptoNothing(e, p, cfg, q);
      UptoKeeps(e, p, cfg, q, 0, i);
    } else {
      var j := AcceptedWhen(e, p, cfg, q, i, s);
    }
    hide Knows, Upto, Admits, Occurrence;
  }

  /** A lasting late ADMIT ends the inclusion: both caches may hold its State, but not with the same interval. */
  lemma LastingSplits(a: Engine, b: Engine, p: Case, small: Config, large: Config, q: seq<Event>, now: real)
    requires Together(a, b, p, small, large, q) && Rising(p, q, now) && Older(b.c, p, q, now)
    requires Lasting(a, b, p, small, large, q)
    ensures var a', b' := Upto(a, p, small, q, |q|), Upto(b, p, large, q, |q|);
            && a'.c.resident.Keys <= a'.c.truth.Keys && b'.c.resident.Keys <= b'.c.truth.Keys
            && Regular(small.host) && Regular(large.host)
            && !Inside(EvictDown(a', small, now).e.c, EvictDown(b', large, now).e.c)
  {
    var a', b' := Upto(a, p, small, q, |q|), Upto(b, p, large, q, |q|);
    ReadyInside(a'.c, p);
    ReadyInside(b'.c, p);
    var i :| 0 <= i < |q| && LateTurn(a, b, p, small, large, q, i) && |Newer(a, p, small, q, i)| < Slots(small);
    SmallAccepts(a, b, p, small, large, q, i);
    OlderInSmall(a.c, b.c, p, q, now);
    hide Upto, Accepts, Ready, KnownNames, Slots, Rising, Older, Included, LateTurn, EvictDown, Above, Newer,
        Occurrence;
    var s := q[i].kind.state;
    AcceptedStays(a, p, small, q, i, |q|);
    AboveIsNewer(a, p, small, q, now, i);
    SurvivesByRank(a', small, now, s);
    OrdinalsBefore(b, p, large, q, now, i, s);
    UptoKeeps(b, p, large, q, i, |q|);
  }

  // ---------- late ADMITs that do not last ----------

  /** With a late ADMIT that does not last, everything the smaller cache keeps was accepted in this instant. */
  lemma OldIsEvicted(a: Engine, p: Case, small: Config, q: seq<Event>, now: real, i: nat, s: Id)
    requires Knows(a, p, q) && small.policy == Lru && Regular(small.host) && Rising(p, q, now) && Older(a.c, p, q, now)
    requires s in a.c.resident && |Newer(a, p, small, q, i)| >= Slots(small)
    ensures var a' := Upto(a, p, small, q, |q|);
            a'.c.resident.Keys <= a'.c.truth.Keys && s !in EvictDown(a', small, now).e.c.resident
  {
    var a' := Upto(a, p, small, q, |q|);
    ReadyInside(a'.c, p);
    UptoNothing(a, p, small, q);
    UptoKeeps(a, p, small, q, 0, |q|);
    hide Knows, Upto, Accepts, Rising, Older, Newer, KeyLe, Slots, EvictDown;
    forall u | u in Newer(a, p, small, q, i) ensures u in Above(a'.c, small, s) {
      NewerMeans(a, p, small, q, i, u);
      var j :| i < j < |q| && Accepts(a, p, small, q, j) && q[j].kind.state == u;
      OldIsBelow(a, p, small, q, now, s, j);
    }
    SubsetSmaller(Newer(a, p, small, q, i), Above(a'.c, small, s));
    SurvivesByRank(a', small, now, s);
  }

  /** A State the smaller cache keeps is kept by the larger one too, if no late ADMIT lasts. */
  lemma AcceptedIncluded(a: Engine, b: Engine, p: Case, small: Config, large: Config, q: seq<Event>, now: real, i: nat)
    requires Together(a, b, p, small, large, q) && Rising(p, q, now) && Older(b.c, p, q, now)
    requires i < |q| && Accepts(a, p, small, q, i) && !Lasting(a, b, p, small, large, q)
    ensures var a', b', s := Upto(a, p, small, q, |q|), Upto(b, p, large, q, |q|), q[i].kind.state;
            && a'.c.resident.Keys <= a'.c.truth.Keys && b'.c.resident.Keys <= b'.c.truth.Keys
            && Regular(small.host) && Regular(large.host)
            && (s in EvictDown(a', small, now).e.c.resident ==>
                  s in EvictDown(b', large, now).e.c.resident && s in a'.c.resident && s in b'.c.resident
                  && a'.c.resident[s] == b'.c.resident[s])
  {
    var a', b', s := Upto(a, p, small, q, |q|), Upto(b, p, large, q, |q|), q[i].kind.state;
    ReadyInside(a'.c, p);
    ReadyInside(b'.c, p);
    OlderInSmall(a.c, b.c, p, q, now);
    MoreSlots(small, large);
    SmallAccepts(a, b, p, small, large, q, i);
    NewerNested(a, b, p, small, large, q, i);
    assert NewResident(p, small, q[i]) == NewResident(p, large, q[i]);
    hide Upto, Accepts, Ready, KnownNames, Slots, Rising, Older, Included, LateTurn, EvictDown, Above, Newer,
        NewResident;
    AcceptedStays(a, p, small, q, i, |q|);
    AboveIsNewer(a, p, small, q, now, i);
    SurvivesByRank(a', small, now, s);
    if s in EvictDown(a', small, now).e.c.resident {
      assert !LateTurn(a, b, p, small, large, q, i);
      AcceptedStays(b, p, large, q, i, |q|);
      AboveIsNewer(b, p, large, q, now, i);
      SubsetSmaller(Newer(b, p, large, q, i), Newer(a, p, small, q, i));
      SurvivesByRank(b', large, now, s);
    }
  }

  /** If some ADMIT is late and none lasts, the enforcements leave the caches included again. */
  lemma NoneLastsInside(a: Engine, b: Engine, p: Case, small: Config, large: Config, q: seq<Event>, now: real, i: nat)
    requires Together(a, b, p, small, large, q) && Rising(p, q, now) && Older(b.c, p, q, now)
    requires |Newer(a, p, small, q, i)| >= Slots(small) && !Lasting(a, b, p, small, large, q)
    ensures var a', b' := Upto(a, p, small, q, |q|), Upto(b, p, large, q, |q|);
            && a'.c.resident.Keys <= a'.c.truth.Keys && b'.c.resident.Keys <= b'.c.truth.Keys
            && Regular(small.host) && Regular(large.host)
            && Inside(EvictDown(a', small, now).e.c, EvictDown(b', large, now).e.c)
  {
    var a', b' := Upto(a, p, small, q, |q|), Upto(b, p, large, q, |q|);
    ReadyInside(a'.c, p);
    ReadyInside(b'.c, p);
    OlderInSmall(a.c, b.c, p, q, now);
    hide Upto, Accepts, Ready, KnownNames, Slots, Rising, Older, Included, LateTurn, EvictDown, Newer, Lasting, Inside,
        Above, NewResident;
    var kept := EvictDown(a', small, now).e.c;
    forall s | s in kept.resident
      ensures s in EvictDown(b', large, now).e.c.resident
      ensures kept.resident[s] == EvictDown(b', large, now).e.c.resident[s]
    {
      if s in a.c.resident {
        OldIsEvicted(a, p, small, q, now, i, s);
      } else {
        var j := AcceptedWhen(a, p, small, q, |q|, s);
        AcceptedIncluded(a, b, p, small, large, q, now, j);
      }
    }
    InsideMeans(kept, EvictDown(b', large, now).e.c);
  }

  lemma InsideMeans(c: Cache, d: Cache)
    ensures Inside(c, d) <==> forall s :: s in c.resident ==> s in d.resident && c.resident[s] == d.resident[s]
  {
  }

  lemma NewerResident(e: Engine, p: Case, cfg: Config, q: seq<Event>, i: nat)
    requires Knows(e, p, q)
    ensures Newer(e, p, cfg, q, i) <= Upto(e, p, cfg, q, |q|).c.resident.Keys
  {
    hide Ready, KnownNames, Upto, Admits, Newer, NewResident;
    forall u | u in Newer(e, p, cfg, q, i) ensures u in Upto(e, p, cfg, q, |q|).c.resident {
      NewerMeans(e, p, cfg, q, i, u);
      var j :| i < j < |q| && Accepts(e, p, cfg, q, j) && q[j].kind.state == u;
      AcceptedStays(e, p, cfg, q, j, |q|);
    }
  }

  lemma FullIsNear(c: Cache, d: Cache, small: Config, large: Config)
    requires Slots(small) > 0 && |c.resident| == Slots(small) && |d.resident| <= Slots(large)
    ensures Near(c, d, small, large)
  {
    hide Slots;
  }

  /** Then the smaller cache is full, so the larger one is ahead by no more than its extra slots. */
  lemma NoneLastsNear(a: Engine, b: Engine, p: Case, small: Config, large: Config, q: seq<Event>, now: real, i: nat)
    requires Together(a, b, p, small, large, q)
    requires |Newer(a, p, small, q, i)| >= Slots(small)
    ensures var a', b' := Upto(a, p, small, q, |q|), Upto(b, p, large, q, |q|);
            && a'.c.resident.Keys <= a'.c.truth.Keys && b'.c.resident.Keys <= b'.c.truth.Keys
            && Regular(small.host) && Regular(large.host)
            && Near(EvictDown(a', small, now).e.c, EvictDown(b', large, now).e.c, small, large)
  {
    hide Upto, Ready, KnownNames, Slots, Included, EvictDown, Newer, Near;
    var a', b' := Upto(a, p, small, q, |q|), Upto(b, p, large, q, |q|);
    ReadyInside(a'.c, p);
    ReadyInside(b'.c, p);
    NewerResident(a, p, small, q, i);
    hide Knows;
    SubsetSmaller(Newer(a, p, small, q, i), a'.c.resident.Keys);
    EvictDownCounts(a', small, now);
    EvictDownCounts(b', large, now);
    FullIsNear(EvictDown(a', small, now).e.c, EvictDown(b', large, now).e.c, small, large);
  }

  // ---------- the enforcement after the pass ----------

  /** What the enforcements leave, whether or not ADMITs were late, as long as none lasts. */
  lemma NoneLastsIncluded(a: Engine, b: Engine, p: Case, small: Config, large: Config, q: seq<Event>, now: real)
    requires Together(a, b, p, small, large, q) && Rising(p, q, now) && Older(b.c, p, q, now)
    requires LateIn(a, b, p, small, large, q) && !Lasting(a, b, p, small, large, q)
    ensures var a', b' := PassOver(a, p, small, Admitting, q), PassOver(b, p, large, Admitting, q);
            && a'.c.resident.Keys <= a'.c.truth.Keys && b'.c.resident.Keys <= b'.c.truth.Keys
            && Regular(small.host) && Regular(large.host)
            && Included(Enforce(a', small, now).c, Enforce(b', large, now).c)
            && Near(Enforce(a', small, now).c, Enforce(b', large, now).c, small, large)
  {
    UptoNothing(a, p, small, q);
    UptoNothing(b, p, large, q);
    var i := SomeLate(a, b, p, small, large, q);
    var a', b' := PassOver(a, p, small, Admitting, q), PassOver(b, p, large, Admitting, q);
    ReadyInside(a'.c, p);
    ReadyInside(b'.c, p);
    hide Ready, KnownNames, Slots, Included, EvictDown, Newer, Near, Lasting, LateIn, LateTurn, Upto, Inside, Enforce,
        Rising, Older, PassOver, Nested;
    NoneLastsInside(a, b, p, small, large, q, now, i);
    NoneLastsNear(a, b, p, small, large, q, now, i);
    UptoNested(a, b, p, small, large, q, |q|);
    InsideIncluded(a'.c, b'.c, EvictDown(a', small, now).e.c, EvictDown(b', large, now).e.c);
  }

  lemma SomeLate(a: Engine, b: Engine, p: Case, small: Config, large: Config, q: seq<Event>) returns (i: nat)
    requires Knows(a, p, q) && Knows(b, p, q) && LateIn(a, b, p, small, large, q)
    ensures i < |q| && LateTurn(a, b, p, small, large, q, i)
  {
    hide Late, PassOver;
    i :| 0 <= i < |q| && Late(PassOver(a, p, small, Admitting, q[..i]).c, PassOver(b, p, large, Admitting, q[..i]).c,
        small, q[i].kind);
  }

  lemma InsideIncluded(a: Cache, b: Cache, a': Cache, b': Cache)
    requires Nested(a, b) && Inside(a', b')
    requires a' == a.(resident := a'.resident, wasted := a'.wasted)
    requires b' == b.(resident := b'.resident, wasted := b'.wasted)
    ensures Included(a', b')
  {
  }
}
