/**
 LRU inclusion, one instant at a time: a larger LRU cache that holds what a smaller one holds, with the same
 recency and no fewer hits and useful byte-seconds, keeps doing so through every pass and every enforcement,
 except where an ADMIT is late.
 */
module RetentionInclusion {
  import opened Entities
  import opened Sorting
  import opened RetentionModel
  import opened RetentionSafety
  import opened RetentionTime
  import opened RetentionTruth

  ghost predicate OneAdmitPerState(p: Case) {
    forall a, b :: a in p.events && b in p.events && a.kind.Admit? && b.kind == a.kind ==> a == b
  }

  /** How many States fit. */
  function Slots(cfg: Config): nat {
    cfg.capacity / STATE_BYTES
  }

  lemma FitsBySlots(n: nat, cfg: Config)
    ensures n * STATE_BYTES <= cfg.capacity <==> n <= Slots(cfg)
  {
  }

  /** Everything the smaller cache holds, the larger holds with the same interval and recency. */
  ghost predicate Included(a: Cache, b: Cache) {
    && a.truth == b.truth
    && (forall s :: s in a.resident ==> s in b.resident && a.resident[s] == b.resident[s])
    && a.hits <= b.hits && a.useful <= b.useful && a.opportunities == b.opportunities
  }

  /** The larger cache is ahead by no more than its extra slots. */
  ghost predicate Near(a: Cache, b: Cache, small: Config, large: Config) {
    && (Slots(small) == 0 ==> a.resident == map[])
    && (Slots(small) > 0 ==> |b.resident| - |a.resident| <= Slots(large) - Slots(small))
  }

  ghost predicate LruPair(small: Config, large: Config) {
    && small.policy == Lru && large.policy == Lru && small.capacity <= large.capacity && small.host == large.host
    && Regular(small.host)
  }

  lemma MoreSlots(small: Config, large: Config)
    requires small.capacity <= large.capacity
    ensures Slots(small) <= Slots(large)
  {
  }

  // ---------- single events ----------

  lemma DropBoth(a: Engine, b: Engine, s: Id, now: real, small: Config, large: Config)
    requires Included(a.c, b.c) && Near(a.c, b.c, small, large) && s in b.c.resident
    ensures var a' := if s in a.c.resident then Drop(a, s, now) else a;
            Included(a'.c, Drop(b, s, now).c) && Near(a'.c, Drop(b, s, now).c, small, large)
  {
    assert (b.c.resident - {s}).Keys == b.c.resident.Keys - {s};
    if s in a.c.resident {
      assert (a.c.resident - {s}).Keys == a.c.resident.Keys - {s};
    }
  }

  lemma InvalidatedIncluded(a: Engine, b: Engine, s: Id, now: real, small: Config, large: Config)
    requires Included(a.c, b.c) && Near(a.c, b.c, small, large) && s in a.c.truth
    ensures Included(Invalidated(a, small, s, now).c, Invalidated(b, large, s, now).c)
    ensures Near(Invalidated(a, small, s, now).c, Invalidated(b, large, s, now).c, small, large)
  {
    var a' := a.(c := a.c.(truth := a.c.truth[s := a.c.truth[s].(valid := false)]));
    var b' := b.(c := b.c.(truth := b.c.truth[s := b.c.truth[s].(valid := false)]));
    assert Included(a'.c, b'.c) && Near(a'.c, b'.c, small, large);
    if s in b.c.resident {
      DropBoth(a', b', s, now, small, large);
    }
    hide Included, Near, Note, Drop;
  }

  /** What a reuse does to the cache: a rejection, a miss, or a hit that starts a new interval. */
  lemma ReusedCache(e: Engine, cfg: Config, s: Id, valid: bool, now: real)
    requires s in e.c.truth
    ensures var c, r := e.c, Reused(e, cfg, s, valid, now).c;
            r == if !(valid && c.truth[s].valid) then
                c.(opportunities := c.opportunities + 1, rejections := c.rejections + 1)
                 else if s !in c.resident then c.(opportunities := c.opportunities + 1)
                 else HitOn(c, s, now)
  {
  }

  function HitOn(c: Cache, s: Id, now: real): Cache
    requires s in c.resident
  {
    c.(opportunities := c.opportunities + 1, hits := c.hits + 1,
       resident := c.resident[s := c.resident[s].(since := now, touched := now)],
       useful := c.useful + Cost(c.resident[s], now))
  }

  lemma HitNear(a: Cache, b: Cache, s: Id, now: real, small: Config, large: Config)
    requires Near(a, b, small, large) && s in b.resident
    ensures s in a.resident ==> Near(HitOn(a, s, now), HitOn(b, s, now), small, large)
    ensures s !in a.resident ==> Near(a.(opportunities := a.opportunities + 1), HitOn(b, s, now), small, large)
  {
    hide Cost, Slots;
    SameSize(b.resident, s, b.resident[s].(since := now, touched := now));
    if s in a.resident {
      SameSize(a.resident, s, a.resident[s].(since := now, touched := now));
    }
  }

  lemma HitIncluded(a: Cache, b: Cache, s: Id, now: real, small: Config, large: Config)
    requires Included(a, b) && Near(a, b, small, large) && s in b.resident && Cost(b.resident[s], now) >= 0.0
    ensures var a' := if s in a.resident then HitOn(a, s, now) else a.(opportunities := a.opportunities + 1);
            Included(a', HitOn(b, s, now)) && Near(a', HitOn(b, s, now), small, large)
  {
    HitNear(a, b, s, now, small, large);
    hide Cost, Near;
  }

  /** A hit in the smaller cache is a hit of the same interval in the larger one. */
  lemma ReusedIncluded(a: Engine, b: Engine, s: Id, valid: bool, now: real, small: Config, large: Config)
    requires Included(a.c, b.c) && Near(a.c, b.c, small, large) && s in a.c.truth && AllTimely(b.c, large, now)
    ensures Included(Reused(a, small, s, valid, now).c, Reused(b, large, s, valid, now).c)
    ensures Near(Reused(a, small, s, valid, now).c, Reused(b, large, s, valid, now).c, small, large)
  {
    hide Reused, Cost, Slots, Timely, AllTimely, HitOn;
    ReusedCache(a, small, s, valid, now);
    ReusedCache(b, large, s, valid, now);
    if s in b.c.resident {
      TimelyCost(b.c, large, s, now);
      HitIncluded(a.c, b.c, s, now, small, large);
    }
  }

  lemma TimelyCost(c: Cache, cfg: Config, s: Id, now: real)
    requires AllTimely(c, cfg, now) && s in c.resident
    ensures Cost(c.resident[s], now) >= 0.0
  {
    assert Timely(c.resident[s], cfg, now);
  }

  lemma SameSize(m: map<Id, Resident>, s: Id, r: Resident)
    requires s in m
    ensures |m[s := r]| == |m| && m[s := r].Keys == m.Keys
  {
    assert m[s := r].Keys == m.Keys;
  }

  lemma UpdatedIncluded(a: Engine, b: Engine, p: Case, ev: Event, small: Config, large: Config)
    requires Included(a.c, b.c) && Near(a.c, b.c, small, large) && Ready(a.c, p) && Ready(b.c, p)
    requires KnownNames(p, ev.kind)
    requires ev.kind.Dependents? || ev.kind.SessionStatus?
    ensures Included(PassStep(a, p, small, Updating, ev).c, PassStep(b, p, large, Updating, ev).c)
    ensures Near(PassStep(a, p, small, Updating, ev).c, PassStep(b, p, large, Updating, ev).c, small, large)
  {
    hide DeriveLifecycle, Note;
  }

  lemma ArrivalInBoth(a: Cache, b: Cache, s: Id, r: Resident, small: Config, large: Config)
    requires Included(a, b) && Near(a, b, small, large) && s !in b.resident && Slots(small) > 0
    ensures var a', b' := a.(resident := a.resident[s := r]), b.(resident := b.resident[s := r]);
            Included(a', b') && Near(a', b', small, large)
  {
    ArrivalNear(a, b, s, r, small, large);
    hide Near;
  }

  lemma ArrivalNear(a: Cache, b: Cache, s: Id, r: Resident, small: Config, large: Config)
    requires Near(a, b, small, large) && s !in b.resident && s !in a.resident && Slots(small) > 0
    ensures Near(a.(resident := a.resident[s := r]), b.(resident := b.resident[s := r]), small, large)
  {
    hide Slots;
    OneArrival(a.resident, s, r);
    OneArrival(b.resident, s, r);
  }

  lemma OneArrival(m: map<Id, Resident>, s: Id, r: Resident)
    requires s !in m
    ensures |m[s := r]| == |m| + 1
  {
    assert m[s := r].Keys == m.Keys + {s};
  }

  lemma ArrivalInLarge(a: Cache, b: Cache, s: Id, r: Resident, small: Config, large: Config)
    requires Included(a, b) && Near(a, b, small, large) && s !in b.resident && Slots(small) == 0
    ensures var b' := b.(resident := b.resident[s := r]);
            Included(a, b') && Near(a, b', small, large)
  {
  }

  lemma SizeBySlots(cfg: Config)
    ensures STATE_BYTES > cfg.capacity <==> Slots(cfg) == 0
  {
  }

  /** An ADMIT of a valid State that only the larger cache still holds, and the smaller one takes in again. */
  predicate Late(a: Cache, b: Cache, small: Config, k: EventKind) {
    && k.Admit? && k.state in b.resident && k.state !in a.resident && k.state in b.truth && b.truth[k.state].valid
    && Slots(small) > 0
  }

  /** An admission of a State that neither cache holds. */
  lemma FreshIncluded(a: Engine, b: Engine, p: Case, ev: Event, small: Config, large: Config)
    requires LruPair(small, large) && Included(a.c, b.c) && Near(a.c, b.c, small, large) && Ready(a.c, p)
    requires Ready(b.c, p)
    requires ev.kind.Admit? && KnownNames(p, ev.kind) && ev.kind.state !in b.c.resident
    ensures Included(Admission(a, p, small, ev).c, Admission(b, p, large, ev).c)
    ensures Near(Admission(a, p, small, ev).c, Admission(b, p, large, ev).c, small, large)
  {
    var s := ev.kind.state;
    SizeBySlots(small);
    SizeBySlots(large);
    MoreSlots(small, large);
    var r := NewResident(p, small, ev);
    assert r == NewResident(p, large, ev);
    hide Note, Slots, NewResident, Included, Near;
    var a' := a.c.(truth := a.c.truth[s := a.c.truth[s].(produced := true)]);
    var b' := b.c.(truth := b.c.truth[s := b.c.truth[s].(produced := true)]);
    if Slots(small) > 0 {
      ArrivalInBoth(a', b', s, r, small, large);
    } else {
      ArrivalInLarge(a', b', s, r, small, large);
    }
  }

  /** An admission of a State the larger cache holds, skipped by both. */
  lemma SkipIncluded(a: Engine, b: Engine, p: Case, ev: Event, small: Config, large: Config)
    requires LruPair(small, large) && Included(a.c, b.c) && Near(a.c, b.c, small, large) && Ready(a.c, p)
    requires Ready(b.c, p)
    requires ev.kind.Admit? && KnownNames(p, ev.kind) && ev.kind.state in b.c.resident
    requires !Late(a.c, b.c, small, ev.kind)
    ensures Included(Admission(a, p, small, ev).c, Admission(b, p, large, ev).c)
    ensures Near(Admission(a, p, small, ev).c, Admission(b, p, large, ev).c, small, large)
  {
    var s := ev.kind.state;
    SizeBySlots(small);
    hide Note, Slots, NewResident, Included, Near;
  }

  lemma AdmissionIncluded(a: Engine, b: Engine, p: Case, ev: Event, small: Config, large: Config)
    requires LruPair(small, large) && Included(a.c, b.c) && Near(a.c, b.c, small, large) && Ready(a.c, p)
    requires Ready(b.c, p)
    requires ev.kind.Admit? && KnownNames(p, ev.kind) && !Late(a.c, b.c, small, ev.kind)
    ensures Included(Admission(a, p, small, ev).c, Admission(b, p, large, ev).c)
    ensures Near(Admission(a, p, small, ev).c, Admission(b, p, large, ev).c, small, large)
  {
    hide LruPair, Included, Near, Late, Admission;
    if ev.kind.state in b.c.resident {
      SkipIncluded(a, b, p, ev, small, large);
    } else {
      FreshIncluded(a, b, p, ev, small, large);
    }
  }

  // ---------- passes ----------

  lemma PassStepIncluded(a: Engine, b: Engine, p: Case, pass: Pass, ev: Event, small: Config, large: Config)
    requires LruPair(small, large) && Included(a.c, b.c) && Near(a.c, b.c, small, large) && Ready(a.c, p)
    requires Ready(b.c, p)
    requires KnownNames(p, ev.kind) && AllTimely(b.c, large, ev.time)
    requires pass == Admitting && ev.kind.Admit? ==> !Late(a.c, b.c, small, ev.kind)
    ensures Included(PassStep(a, p, small, pass, ev).c, PassStep(b, p, large, pass, ev).c)
    ensures Near(PassStep(a, p, small, pass, ev).c, PassStep(b, p, large, pass, ev).c, small, large)
  {
    hide Included, Near, AllTimely, LruPair, Late, Invalidated, Reused, Relabelled, SessionSet, Admission,
        DeriveLifecycle;
    match ev.kind
    case Invalidate(s) => InvalidatedIncluded(a, b, s, ev.time, small, large);
    case Reuse(s, valid) => ReusedIncluded(a, b, s, valid, ev.time, small, large);
    case Dependents(s, l) => UpdatedIncluded(a, b, p, ev, small, large);
    case SessionStatus(s, live) => UpdatedIncluded(a, b, p, ev, small, large);
    case Admit(s) => if pass == Admitting { AdmissionIncluded(a, b, p, ev, small, large); }
  }

  lemma {:induction false} PassIncluded(a: Engine, b: Engine, p: Case, pass: Pass, q: seq<Event>, now: real,
      small: Config, large: Config)
    requires LruPair(small, large) && Included(a.c, b.c) && Near(a.c, b.c, small, large) && Ready(a.c, p)
    requires Ready(b.c, p)
    requires (forall i :: 0 <= i < |q| ==> KnownNames(p, q[i].kind) && q[i].time == now) && pass != Admitting
    requires InTime(b.c, large, now) && large.ttl > 0.0
    ensures Included(PassOver(a, p, small, pass, q).c, PassOver(b, p, large, pass, q).c)
    ensures Near(PassOver(a, p, small, pass, q).c, PassOver(b, p, large, pass, q).c, small, large)
  {
    hide Included, Near, Ready, PassStep, LruPair;
    if q != [] {
      var n := |q| - 1;
      PassIncluded(a, b, p, pass, q[..n], now, small, large);
      PassInTime(b, p, large, pass, q[..n], now);
      PassStepIncluded(PassOver(a, p, small, pass, q[..n]), PassOver(b, p, large, pass, q[..n]), p, pass, q[n], small,
          large);
    }
  }

  /** Nothing resident is unproduced. */
  ghost predicate OnlyProduced(c: Cache) {
    forall s :: s in c.resident ==> s in c.truth && c.truth[s].produced
  }

  /** The States the listed events are about to admit are not produced yet. */
  ghost predicate Unproduced(t: TruthMap, q: seq<Event>) {
    forall i :: 0 <= i < |q| && q[i].kind.Admit? && q[i].kind.state in t ==> !t[q[i].kind.state].produced
  }

  ghost predicate DistinctAdmits(q: seq<Event>) {
    forall i, j :: 0 <= i < j < |q| && q[i].kind.Admit? ==> q[j].kind != q[i].kind
  }

  lemma AdmitStepProduces(e: Engine, p: Case, cfg: Config, ev: Event)
    requires Ready(e.c, p) && KnownNames(p, ev.kind) && OnlyProduced(e.c)
    ensures OnlyProduced(PassStep(e, p, cfg, Admitting, ev).c)
    ensures forall s :: s in e.c.truth && PassStep(e, p, cfg, Admitting, ev).c.truth[s].produced ==>
              e.c.truth[s].produced || ev.kind == Admit(s)
  {
    hide Note, Judge, NewResident, Ready, KnownNames;
  }

  /** After the first events of the pass, what is produced was before or is among them. */
  lemma {:induction false} AdmitPassProduces(e: Engine, p: Case, cfg: Config, q: seq<Event>)
    requires Ready(e.c, p) && (forall i :: 0 <= i < |q| ==> KnownNames(p, q[i].kind)) && OnlyProduced(e.c)
    ensures var r := PassOver(e, p, cfg, Admitting, q);
            && OnlyProduced(r.c)
            && forall s :: s in e.c.truth && r.c.truth[s].produced ==>
               e.c.truth[s].produced || exists i :: 0 <= i < |q| && q[i].kind == Admit(s)
  {
    hide OnlyProduced, PassStep;
    if q != [] {
      var n := |q| - 1;
      AdmitPassProduces(e, p, cfg, q[..n]);
      var before := PassOver(e, p, cfg, Admitting, q[..n]);
      AdmitStepProduces(before, p, cfg, q[n]);
      var r := PassOver(e, p, cfg, Admitting, q);
      forall s | s in e.c.truth && r.c.truth[s].produced
        ensures e.c.truth[s].produced || exists i :: 0 <= i < |q| && q[i].kind == Admit(s)
      {
        if !e.c.truth[s].produced && q[n].kind != Admit(s) {
          var i :| 0 <= i < n && q[..n][i].kind == Admit(s);
          assert q[i].kind == Admit(s);
        }
      }
    }
  }

  lemma NotYetResident(e: Engine, p: Case, cfg: Config, q: seq<Event>)
    requires Ready(e.c, p) && q != [] && (forall i :: 0 <= i < |q| ==> KnownNames(p, q[i].kind))
    requires OnlyProduced(e.c) && Unproduced(e.c.truth, q) && DistinctAdmits(q) && q[|q| - 1].kind.Admit?
    ensures q[|q| - 1].kind.state !in PassOver(e, p, cfg, Admitting, q[..|q| - 1]).c.resident
  {
    hide PassOver;
    var n := |q| - 1;
    AdmitPassProduces(e, p, cfg, q[..n]);
    var s := q[n].kind.state;
    assert s in e.c.truth && !e.c.truth[s].produced;
    assert forall i :: 0 <= i < n ==> q[..n][i].kind != Admit(s);
  }

  /** Some ADMIT of the list is late when its turn comes. */
  ghost predicate LateIn(a: Engine, b: Engine, p: Case, small: Config, large: Config, q: seq<Event>)
    requires Ready(a.c, p) && Ready(b.c, p) && forall i :: 0 <= i < |q| ==> KnownNames(p, q[i].kind)
  {
    exists i :: 0 <= i < |q| &&
      Late(PassOver(a, p, small, Admitting, q[..i]).c, PassOver(b, p, large, Admitting, q[..i]).c, small, q[i].kind)
  }

  lemma {:induction false} AdmitPassIncluded(a: Engine, b: Engine, p: Case, q: seq<Event>, n: nat, now: real,
      small: Config, large: Config)
    requires LruPair(small, large) && Included(a.c, b.c) && Near(a.c, b.c, small, large) && Ready(a.c, p)
    requires Ready(b.c, p) && n <= |q|
    requires forall i :: 0 <= i < |q| ==> KnownNames(p, q[i].kind) && q[i].time == now
    requires Settled(b.c, large, now) && large.ttl > 0.0 && !LateIn(a, b, p, small, large, q)
    ensures var a', b' := PassOver(a, p, small, Admitting, q[..n]).c, PassOver(b, p, large, Admitting, q[..n]).c;
            Included(a', b') && Near(a', b', small, large)
    decreases n
  {
    hide Included, Near, Ready, PassStep, LruPair, Late;
    if n > 0 {
      var q' := q[..n - 1];
      assert q[..n][..n - 1] == q';
      var a', b' := PassOver(a, p, small, Admitting, q'), PassOver(b, p, large, Admitting, q');
      assert !Late(a'.c, b'.c, small, q[n - 1].kind);
      hide LateIn, PassOver;
      AdmitPassIncluded(a, b, p, q, n - 1, now, small, large);
      PassInTime(b, p, large, Admitting, q', now);
      PassStepIncluded(a', b', p, Admitting, q[n - 1], small, large);
    }
  }

  /** States that are admitted for the first time are never late. */
  lemma FirstAdmitsNeverLate(a: Engine, b: Engine, p: Case, small: Config, large: Config, q: seq<Event>)
    requires Ready(a.c, p) && Ready(b.c, p) && forall i :: 0 <= i < |q| ==> KnownNames(p, q[i].kind)
    requires OnlyProduced(b.c) && Unproduced(b.c.truth, q) && DistinctAdmits(q)
    ensures !LateIn(a, b, p, small, large, q)
  {
    hide Ready, PassOver, OnlyProduced;
    forall i | 0 <= i < |q|
      ensures !Late(PassOver(a, p, small, Admitting, q[..i]).c, PassOver(b, p, large, Admitting, q[..i]).c, small,
              q[i].kind)
    {
      if q[i].kind.Admit? {
        var r := q[..i + 1];
        assert r[..i] == q[..i] && r[i] == q[i];
        NotYetResident(b, p, large, r);
      }
    }
  }

  // ---------- enforcement ----------

  /** How many States an LRU enforcement leaves. */
  lemma {:induction false} EvictDownCounts(e: Engine, cfg: Config, now: real)
    requires e.c.resident.Keys <= e.c.truth.Keys && Regular(cfg.host) && cfg.policy == Lru
    ensures var n := |e.c.resident|; |EvictDown(e, cfg, now).e.c.resident| == if n <= Slots(cfg) then n else Slots(cfg)
    decreases |e.c.resident|
  {
    hide IsVictim;
    FitsBySlots(|e.c.resident|, cfg);
    hide Slots;
    if Bytes(e.c) > cfg.capacity {
      assert Candidates(e.c, cfg) == e.c.resident.Keys;
      assert e.c.resident.Keys != {};
      var v := Victim(e.c, cfg);
      assert (e.c.resident - {v}).Keys == e.c.resident.Keys - {v};
      EvictDownCounts(Drop(e, v, now), cfg, now);
    }
  }

  /** The victim of the larger cache, if the smaller one holds it, is the smaller one's victim too. */
  lemma SharedVictim(a: Cache, b: Cache, small: Config, large: Config, v: Id)
    requires LruPair(small, large) && Included(a, b) && b.resident.Keys <= b.truth.Keys
    requires IsVictim(b, large, v) && v in a.resident
    ensures a.resident.Keys <= a.truth.Keys && Candidates(a, small) != {} && Victim(a, small) == v
  {
    assert a.resident.Keys <= a.truth.Keys;
    assert v in Candidates(a, small);
    forall u | u in Candidates(a, small) ensures KeyLe(a, small, v, u) {
      assert KeyLe(b, large, v, u);
    }
    VictimUnique(a, small, Victim(a, small), v);
  }

  lemma {:induction false} EvictDownIncluded(a: Engine, b: Engine, now: real, small: Config, large: Config)
    requires LruPair(small, large) && Included(a.c, b.c) && Near(a.c, b.c, small, large)
    requires a.c.resident.Keys <= a.c.truth.Keys && b.c.resident.Keys <= b.c.truth.Keys
    ensures Included(EvictDown(a, small, now).e.c, EvictDown(b, large, now).e.c)
    decreases |b.c.resident|
  {
    FitsBySlots(|b.c.resident|, large);
    FitsBySlots(|a.c.resident|, small);
    MoreSlots(small, large);
    hide Slots, IsVictim, KeyLe;
    if Bytes(b.c) <= large.capacity {
      StillIncluded(a, b, now, small, large);
    } else if a.c.resident == map[] {
      EmptyIncluded(a, b, now, small, large);
    } else {
      BothOverflow(a, b, now, small, large);
    }
  }

  lemma StillIncluded(a: Engine, b: Engine, now: real, small: Config, large: Config)
    requires Regular(small.host) && Included(a.c, b.c) && a.c.resident.Keys <= a.c.truth.Keys
    ensures Included(EvictDown(a, small, now).e.c, b.c)
  {
    hide EvictDown;
    var r := EvictDown(a, small, now).e.c;
    forall s | s in r.resident ensures s in b.c.resident && r.resident[s] == b.c.resident[s] {
      assert s in a.c.resident;
    }
  }

  lemma EmptyIncluded(a: Engine, b: Engine, now: real, small: Config, large: Config)
    requires Regular(small.host) && Regular(large.host) && Included(a.c, b.c) && a.c.resident == map[]
    requires b.c.resident.Keys <= b.c.truth.Keys
    ensures Included(EvictDown(a, small, now).e.c, EvictDown(b, large, now).e.c)
  {
    hide EvictDown;
    var r, s := EvictDown(a, small, now).e.c, EvictDown(b, large, now).e.c;
    assert r.resident.Keys == {};
  }

  lemma BothOverflow(a: Engine, b: Engine, now: real, small: Config, large: Config)
    requires LruPair(small, large) && Included(a.c, b.c) && Near(a.c, b.c, small, large)
    requires a.c.resident.Keys <= a.c.truth.Keys && b.c.resident.Keys <= b.c.truth.Keys
    requires Bytes(b.c) > large.capacity && a.c.resident != map[]
    ensures Included(EvictDown(a, small, now).e.c, EvictDown(b, large, now).e.c)
    decreases |b.c.resident|, 0
  {
    FitsBySlots(|b.c.resident|, large);
    FitsBySlots(|a.c.resident|, small);
    hide Slots, KeyLe, IsVictim;
    assert Candidates(b.c, large) == b.c.resident.Keys;
    assert |b.c.resident.Keys| > 0;
    var v := Victim(b.c, large);
    assert (b.c.resident - {v}).Keys == b.c.resident.Keys - {v};
    DropBoth(a, b, v, now, small, large);
    if v in a.c.resident {
      SharedVictim(a.c, b.c, small, large, v);
      EvictDownIncluded(Drop(a, v, now), Drop(b, v, now), now, small, large);
    } else {
      EvictDownIncluded(a, Drop(b, v, now), now, small, large);
    }
  }
}
