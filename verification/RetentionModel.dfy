/**
 The retention engine as a value: a discrete-event cache of equally sized States under one of four
 policies, with an independent ground truth, useful and wasted byte-seconds and an audit trail.
 Times and byte-seconds are real numbers.
 */
module RetentionModel {
  import opened Entities
  import opened Sorting

  /** The one State size the engine accepts: 16 tokens of 524288 bytes. */
  const STATE_BYTES: nat := 16 * 524288

  datatype Policy = Lru | FixedTtl | SessionPinning | LifecycleB4

  datatype EventKind =
    | Invalidate(state: Id)
    | Dependents(state: Id, lifecycles: seq<ContinuationLifecycle>)
    | SessionStatus(session: Id, live: bool)
    | Reuse(state: Id, semanticValid: bool)
    | Admit(state: Id)

  datatype Event = Event(id: Id, time: real, ordinal: nat, kind: EventKind)

  datatype StateSpec = StateSpec(session: Id, dependents: seq<ContinuationLifecycle>)

  datatype Case = Case(sessions: map<Id, bool>, states: map<Id, StateSpec>, events: seq<Event>, start: real, end: real)

  /** The manifest of one run. A time to live matters only under FIXED_TTL and is then positive. */
  datatype Config = Config(policy: Policy, capacity: nat, ttl: real, host: Host)

  ghost predicate Configured(cfg: Config) {
    Regular(cfg.host) && cfg.ttl > 0.0
  }

  function Phase(k: EventKind): nat {
    match k
    case Invalidate(_) => 0
    case Dependents(_, _) => 1
    case SessionStatus(_, _) => 1
    case Reuse(_, _) => 4
    case Admit(_) => 6
  }

  function DeriveLifecycle(dependents: seq<ContinuationLifecycle>): StateLifecycle {
    if LifeActive in dependents then Active
    else if LifeWaiting in dependents then Waiting
    else if LifeSpeculative in dependents then Speculative
    else Terminal
  }

  predicate Supported(dependents: seq<ContinuationLifecycle>) {
    forall l :: l in dependents ==> l in {LifeActive, LifeWaiting, LifeSpeculative, LifeTerminal}
  }

  // ---------- what a Program case has to satisfy ----------

  predicate KnownNames(p: Case, k: EventKind) {
    match k
    case SessionStatus(s, _) => s in p.sessions
    case Dependents(s, l) => s in p.states && Supported(l)
    case _ => k.state in p.states
  }

  /** The (time, phase, ordinal) order of events. */
  predicate Precedes(a: Event, b: Event) {
    a.time < b.time || (a.time == b.time &&
        (Phase(a.kind) < Phase(b.kind) || (Phase(a.kind) == Phase(b.kind) && a.ordinal < b.ordinal)))
  }

  ghost predicate AdmittedBefore(p: Case, e: Event)
    requires e.kind.Reuse? || e.kind.Invalidate?
  {
    forall a :: a in p.events && a.kind == Admit(e.kind.state) && (forall b :: b in p.events && b.kind == a.kind ==>
        !Precedes(b, a)) ==>
      !Precedes(e, a)
  }

  ghost predicate WellFormedCase(p: Case) {
    && 0.0 <= p.start <= p.end && p.sessions.Keys != {} && p.states.Keys != {}
    && (forall s :: s in p.states ==> p.states[s].session in p.sessions && Supported(p.states[s].dependents))
    && (forall e :: e in p.events ==> p.start <= e.time <= p.end && KnownNames(p, e.kind))
    && (forall i, j :: 0 <= i < j < |p.events| ==> p.events[i].id != p.events[j].id)
    && (forall i, j :: 0 <= i < j < |p.events| ==>
       Precedes(p.events[i], p.events[j]) || Precedes(p.events[j], p.events[i]))
    && (forall s :: s in p.states ==> exists e :: e in p.events && e.kind == Admit(s))
    && (forall e :: e in p.events && (e.kind.Reuse? || e.kind.Invalidate?) ==> AdmittedBefore(p, e))
  }

  // ---------- the events of one instant ----------

  predicate EventLe(a: Event, b: Event) {
    Phase(a.kind) < Phase(b.kind) || (Phase(a.kind) == Phase(b.kind) && a.ordinal <= b.ordinal)
  }

  function At(events: seq<Event>, t: real): (r: seq<Event>)
    ensures forall e :: e in r <==> e in events && e.time == t
  {
    if events == [] then [] else
      var rest := At(events[..|events| - 1], t);
      assert events == events[..|events| - 1] + [events[|events| - 1]];
      if events[|events| - 1].time == t then rest + [events[|events| - 1]] else rest
  }

  /** The events at one time in processing order. */
  function Batch(p: Case, t: real): (r: seq<Event>)
    ensures forall e :: e in r <==> e in p.events && e.time == t
  {
    SortMembers(At(p.events, t), EventLe);
    Sort(At(p.events, t), EventLe)
  }

  /** The position of an ADMIT event among all ADMIT events. */
  function Occurrence(p: Case, e: Event): nat {
    |set a | a in p.events && a.kind.Admit? && Precedes(a, e)|
  }

  // ---------- the state of a run ----------

  datatype Truth = Truth(valid: bool, lifecycle: StateLifecycle, produced: bool)

  datatype Resident = Resident(since: real, touched: real, ordinal: nat, expiry: Option<real>)

  datatype Cache = Cache(
    truth: map<Id, Truth>, sessions: map<Id, bool>, resident: map<Id, Resident>, infeasible: bool,
    opportunities: nat, hits: nat, rejections: nat, useful: real, wasted: real)

  datatype AuditKind =
    | NoteInvalidated | NoteLifecycle | NoteSession | NoteReleased | NoteExpired | NoteHit | NoteMiss | NoteReject
    | NoteAdmitted | NoteSkipped | NoteEvicted | NoteInfeasible | NoteCheckpoint | NoteProgramEnd

  datatype Record = Record(time: real, kind: AuditKind, state: Option<Id>, resident: set<Id>, bytes: nat,
                           useful: real, wasted: real, infeasible: bool)

  /** `admitted` is the list of the current instant; `failed` stands for a raised exception. */
  datatype Engine = Engine(c: Cache, audit: seq<Record>, maxBytes: nat, admitted: seq<Id>, failed: bool)

  function Bytes(c: Cache): nat {
    |c.resident| * STATE_BYTES
  }

  function ActiveResidents(c: Cache): set<Id> {
    set s | s in c.resident && s in c.truth && c.truth[s].lifecycle == Active
  }

  function ActiveBytes(c: Cache): nat {
    |ActiveResidents(c)| * STATE_BYTES
  }

  function Start(p: Case): Engine {
    Engine(Cache(map s | s in p.states :: Truth(true, DeriveLifecycle(p.states[s].dependents), false),
                 p.sessions, map[], false, 0, 0, 0, 0.0, 0.0), [], 0, [], false)
  }

  /** One audit record; over capacity it raises. */
  function Note(e: Engine, cfg: Config, now: real, kind: AuditKind, state: Option<Id>): (r: Engine)
    ensures r.c == e.c && r.admitted == e.admitted
    ensures r.failed <==> e.failed || Bytes(e.c) > cfg.capacity
  {
    e.(audit := e.audit + [Record(now, kind, state, e.c.resident.Keys, Bytes(e.c), e.c.useful, e.c.wasted,
        e.c.infeasible)],
       maxBytes := if Bytes(e.c) > e.maxBytes then Bytes(e.c) else e.maxBytes,
       failed := e.failed || Bytes(e.c) > cfg.capacity)
  }

  function Cost(r: Resident, now: real): real {
    STATE_BYTES as real * (now - r.since)
  }

  /** The interval ends as wasted and the State leaves; an interval that ends before it starts raises. */
  function Drop(e: Engine, s: Id, now: real): (r: Engine)
    requires s in e.c.resident
    ensures e.failed ==> r.failed
  {
    e.(c := e.c.(resident := e.c.resident - {s}, wasted := e.c.wasted + Cost(e.c.resident[s], now)),
       failed := e.failed || now < e.c.resident[s].since)
  }

  /** The interval ends as useful and a new one starts. */
  function Touch(e: Engine, s: Id, now: real): (r: Engine)
    requires s in e.c.resident
    ensures e.failed ==> r.failed
  {
    e.(c := e.c.(resident := e.c.resident[s := e.c.resident[s].(since := now, touched := now)],
                 useful := e.c.useful + Cost(e.c.resident[s], now)),
       failed := e.failed || now < e.c.resident[s].since)
  }

  function MarkInfeasible(e: Engine, cfg: Config, now: real, state: Option<Id>): (r: Engine)
    ensures e.failed ==> r.failed
  {
    Note(e.(c := e.c.(infeasible := true)), cfg, now, NoteInfeasible, state)
  }

  // ---------- the external events ----------

  function Invalidated(e: Engine, cfg: Config, s: Id, now: real): (r: Engine)
    requires s in e.c.truth
    ensures e.failed ==> r.failed
  {
    var marked := e.(c := e.c.(truth := e.c.truth[s := e.c.truth[s].(valid := false)]));
    Note(if s in e.c.resident then Drop(marked, s, now) else marked, cfg, now, NoteInvalidated, Some(s))
  }

  function Relabelled(e: Engine, cfg: Config, s: Id, l: StateLifecycle, now: real): (r: Engine)
    requires s in e.c.truth
    ensures e.failed ==> r.failed
  {
    Note(e.(c := e.c.(truth := e.c.truth[s := e.c.truth[s].(lifecycle := l)])), cfg, now, NoteLifecycle, Some(s))
  }

  function SessionSet(e: Engine, cfg: Config, s: Id, live: bool, now: real): (r: Engine)
    ensures e.failed ==> r.failed
  {
    Note(e.(c := e.c.(sessions := e.c.sessions[s := live])), cfg, now, NoteSession, None)
  }

  function Reused(e: Engine, cfg: Config, s: Id, semanticValid: bool, now: real): (r: Engine)
    requires s in e.c.truth
    ensures e.failed ==> r.failed
  {
    var seen := e.(c := e.c.(opportunities := e.c.opportunities + 1));
    if !(semanticValid && e.c.truth[s].valid) then
      Note(seen.(c := seen.c.(rejections := seen.c.rejections + 1)), cfg, now, NoteReject, Some(s))
    else if s !in e.c.resident then Note(seen, cfg, now, NoteMiss, Some(s))
    else Note(Touch(seen.(c := seen.c.(hits := seen.c.hits + 1)), s, now), cfg, now, NoteHit, Some(s))
  }

  datatype Verdict = Accept | Skip | Refuse

  /** What the policy says to an admission of a valid State that is not resident. */
  function Judge(c: Cache, p: Case, cfg: Config, s: Id): Verdict
    requires s in p.states && s in c.truth && p.states[s].session in c.sessions
  {
    match cfg.policy
    case Lru => if STATE_BYTES > cfg.capacity then Skip else Accept
    case FixedTtl => if STATE_BYTES > cfg.capacity then Skip else Accept
    case SessionPinning =>
      if !c.sessions[p.states[s].session] then Skip
      else if Bytes(c) + STATE_BYTES > cfg.capacity then Refuse
      else Accept
    case LifecycleB4 =>
      if c.truth[s].lifecycle == Terminal then Skip
      else if c.truth[s].lifecycle == Active && ActiveBytes(c) + STATE_BYTES > cfg.capacity then Refuse
      else Accept
  }

  function NewResident(p: Case, cfg: Config, ev: Event): Resident {
    Resident(ev.time, ev.time, Occurrence(p, ev), if cfg.policy == FixedTtl then Some(ev.time + cfg.ttl) else None)
  }

  function Admission(e: Engine, p: Case, cfg: Config, ev: Event): (r: Engine)
    requires ev.kind.Admit? && ev.kind.state in p.states && ev.kind.state in e.c.truth
    requires p.states[ev.kind.state].session in e.c.sessions
    ensures e.failed ==> r.failed
  {
    var s := ev.kind.state;
    var produced := e.(c := e.c.(truth := e.c.truth[s := e.c.truth[s].(produced := true)]));
    if !e.c.truth[s].valid || s in e.c.resident then Note(produced, cfg, ev.time, NoteSkipped, Some(s))
    else
      match Judge(produced.c, p, cfg, s)
      case Skip => Note(produced, cfg, ev.time, NoteSkipped, Some(s))
      case Refuse => MarkInfeasible(produced, cfg, ev.time, Some(s))
      case Accept =>
        produced.(c := produced.c.(resident := produced.c.resident[s := NewResident(p, cfg, ev)]),
            admitted := produced.admitted + [s])
  }

  /** The four passes over the events of an instant. */
  datatype Pass = Invalidating | Updating | Reusing | Admitting

  /** Every name an event of the case uses is known to the run. */
  predicate Ready(c: Cache, p: Case) {
    && c.truth.Keys == p.states.Keys && c.sessions.Keys == p.sessions.Keys
    && (forall s :: s in p.states ==> p.states[s].session in p.sessions)
    && c.resident.Keys <= p.states.Keys
  }

  lemma ReadyInside(c: Cache, p: Case)
    requires Ready(c, p)
    ensures c.resident.Keys <= c.truth.Keys
  {
  }

  lemma ReusedReady(e: Engine, p: Case, cfg: Config, s: Id, valid: bool, now: real)
    requires Ready(e.c, p) && s in e.c.truth
    ensures Ready(Reused(e, cfg, s, valid, now).c, p)
  {
  }

  lemma AdmissionReady(e: Engine, p: Case, cfg: Config, ev: Event)
    requires Ready(e.c, p) && ev.kind.Admit? && ev.kind.state in p.states
    ensures Ready(Admission(e, p, cfg, ev).c, p)
  {
  }

  function PassStep(e: Engine, p: Case, cfg: Config, pass: Pass, ev: Event): (r: Engine)
    requires Ready(e.c, p) && KnownNames(p, ev.kind)
    ensures Ready(r.c, p) && (e.failed ==> r.failed)
  {
    match ev.kind
    case Invalidate(s) => if pass == Invalidating then Invalidated(e, cfg, s, ev.time) else e
    case Dependents(s, l) => if pass == Updating then Relabelled(e, cfg, s, DeriveLifecycle(l), ev.time) else e
    case SessionStatus(s, live) => if pass == Updating then SessionSet(e, cfg, s, live, ev.time) else e
    case Reuse(s, valid) =>
      if pass == Reusing then (ReusedReady(e, p, cfg, s, valid, ev.time); Reused(e, cfg, s, valid, ev.time)) else e
    case Admit(s) =>
      if pass == Admitting then (AdmissionReady(e, p, cfg, ev); Admission(e, p, cfg, ev)) else e
  }

  function PassOver(e: Engine, p: Case, cfg: Config, pass: Pass, q: seq<Event>): (r: Engine)
    requires Ready(e.c, p) && forall i :: 0 <= i < |q| ==> KnownNames(p, q[i].kind)
    ensures Ready(r.c, p) && (e.failed ==> r.failed)
  {
    if q == [] then e else PassStep(PassOver(e, p, cfg, pass, q[..|q| - 1]), p, cfg, pass, q[|q| - 1])
  }

  // ---------- releases and expiries ----------

  function Listed(ids: seq<Id>): set<Id> {
    set s | s in ids
  }

  lemma ListedLast(m: map<Id, Resident>, ids: seq<Id>)
    requires ids != []
    ensures m - Listed(ids[..|ids| - 1]) - {ids[|ids| - 1]} == m - Listed(ids)
  {
    assert ids == ids[..|ids| - 1] + [ids[|ids| - 1]];
    assert Listed(ids) == Listed(ids[..|ids| - 1]) + {ids[|ids| - 1]};
  }

  lemma LastRemains(m: map<Id, Resident>, ids: seq<Id>)
    requires ids != [] && (forall i :: 0 <= i < |ids| ==> ids[i] in m)
    requires forall i, j :: 0 <= i < j < |ids| ==> ids[i] != ids[j]
    ensures ids[|ids| - 1] in m - Listed(ids[..|ids| - 1])
  {
  }

  /** Each listed State leaves with its interval wasted, one record each. */
  function ReleaseAll(e: Engine, cfg: Config, ids: seq<Id>, now: real, kind: AuditKind): (r: Engine)
    requires forall i :: 0 <= i < |ids| ==> ids[i] in e.c.resident
    requires forall i, j :: 0 <= i < j < |ids| ==> ids[i] != ids[j]
    ensures r.c == e.c.(resident := e.c.resident - Listed(ids), wasted := r.c.wasted)
    ensures r.admitted == e.admitted && (e.failed ==> r.failed)
  {
    if ids == [] then e else
      var n := |ids| - 1;
      var before := ReleaseAll(e, cfg, ids[..n], now, kind);
      LastRemains(e.c.resident, ids);
      ListedLast(e.c.resident, ids);
      Note(Drop(before, ids[n], now), cfg, now, kind, Some(ids[n]))
  }

  /** The States the policy lets go of after the ground truth moved. */
  function Releasable(c: Cache, p: Case, cfg: Config): set<Id> {
    match cfg.policy
    case SessionPinning =>
      set s | s in c.resident && s in p.states && p.states[s].session in c.sessions && !c.sessions[p.states[s].session]
    case LifecycleB4 => set s | s in c.resident && s in c.truth && c.truth[s].lifecycle == Terminal
    case _ => {}
  }

  lemma SortedNamesIndexed(s: set<Id>, h: Host)
    requires Regular(h)
    ensures var ids := SortedNames(s, h);
            && (forall i :: 0 <= i < |ids| ==> ids[i] in s)
            && (forall i, j :: 0 <= i < j < |ids| ==> ids[i] != ids[j])
            && Listed(ids) == s
  {
    var ids := SortedNames(s, h);
    assert forall i :: 0 <= i < |ids| ==> ids[i] in ids;
  }

  function PolicyReleases(e: Engine, p: Case, cfg: Config, now: real): (r: Engine)
    requires Regular(cfg.host)
    ensures r.c == e.c.(resident := e.c.resident - Releasable(e.c, p, cfg), wasted := r.c.wasted)
    ensures r.admitted == e.admitted && (e.failed ==> r.failed)
  {
    SortedNamesIndexed(Releasable(e.c, p, cfg), cfg.host);
    ReleaseAll(e, cfg, SortedNames(Releasable(e.c, p, cfg), cfg.host), now, NoteReleased)
  }

  function Expired(c: Cache, cfg: Config, now: real): set<Id> {
    set s | s in c.resident && cfg.policy == FixedTtl && c.resident[s].expiry.Some? && c.resident[s].expiry.value <= now
  }

  /** Every due State leaves; an expiry that was due at an earlier time raises. */
  function TtlExpiries(e: Engine, cfg: Config, now: real): (r: Engine)
    requires Regular(cfg.host)
    ensures r.c == e.c.(resident := e.c.resident - Expired(e.c, cfg, now), wasted := r.c.wasted)
    ensures r.admitted == e.admitted && (e.failed ==> r.failed)
  {
    SortedNamesIndexed(Expired(e.c, cfg, now), cfg.host);
    var out := ReleaseAll(e, cfg, SortedNames(Expired(e.c, cfg, now), cfg.host), now, NoteExpired);
    out.(failed := out.failed || exists s :: s in Expired(e.c, cfg, now) && e.c.resident[s].expiry != Some(now))
  }

  // ---------- capacity ----------

  function LifecycleRank(l: StateLifecycle): nat {
    match l
    case Active => 3
    case Waiting => 2
    case Speculative => 1
    case Terminal => 0
  }

  lemma ReleasedReady(e: Engine, p: Case, cfg: Config, now: real)
    requires Ready(e.c, p) && Regular(cfg.host)
    ensures Ready(TtlExpiries(PolicyReleases(e, p, cfg, now), cfg, now).c, p)
  {
    hide PolicyReleases, TtlExpiries;
  }

  /** The (last touch, admission ordinal, name) order, with the lifecycle priority first under B4. */
  predicate KeyLe(c: Cache, cfg: Config, a: Id, b: Id)
    requires a in c.resident && b in c.resident && a in c.truth && b in c.truth
  {
    var x, y := c.resident[a], c.resident[b];
    var ra, rb := LifecycleRank(c.truth[a].lifecycle), LifecycleRank(c.truth[b].lifecycle);
    if cfg.policy == LifecycleB4 && ra != rb then ra < rb
    else if x.touched != y.touched then x.touched < y.touched
    else if x.ordinal != y.ordinal then x.ordinal < y.ordinal
    else cfg.host.le(a, b)
  }

  function Candidates(c: Cache, cfg: Config): set<Id> {
    if cfg.policy == LifecycleB4 then c.resident.Keys - ActiveResidents(c) else c.resident.Keys
  }

  predicate IsVictim(c: Cache, cfg: Config, v: Id)
    requires c.resident.Keys <= c.truth.Keys
  {
    v in Candidates(c, cfg) && forall u :: u in Candidates(c, cfg) ==> KeyLe(c, cfg, v, u)
  }

  lemma {:induction false} LeastKeyExists(c: Cache, cfg: Config, among: set<Id>)
    requires c.resident.Keys <= c.truth.Keys && Regular(cfg.host) && among <= c.resident.Keys && among != {}
    ensures exists v :: v in among && forall u :: u in among ==> KeyLe(c, cfg, v, u)
  {
    var x :| x in among;
    var rest := among - {x};
    assert cfg.host.le(x, x);
    if rest == {} {
      assert among == {x};
      assert KeyLe(c, cfg, x, x);
    } else {
      LeastKeyExists(c, cfg, rest);
      var w :| w in rest && forall u :: u in rest ==> KeyLe(c, cfg, w, u);
      var v := if KeyLe(c, cfg, w, x) then w else x;
      forall u | u in among ensures KeyLe(c, cfg, v, u) {
        if u != x {
          assert KeyLe(c, cfg, w, u);
          KeyLeTotal(c, cfg, w, x);
          if v == x { KeyLeTrans(c, cfg, x, w, u); }
        } else {
          KeyLeTotal(c, cfg, x, x);
        }
      }
    }
  }

  lemma KeyLeTotal(c: Cache, cfg: Config, a: Id, b: Id)
    requires a in c.resident && b in c.resident && a in c.truth && b in c.truth && Regular(cfg.host)
    ensures KeyLe(c, cfg, a, b) || KeyLe(c, cfg, b, a)
  {
    assert cfg.host.le(a, b) || cfg.host.le(b, a);
  }

  lemma KeyLeTrans(c: Cache, cfg: Config, a: Id, b: Id, d: Id)
    requires a in c.resident && b in c.resident && d in c.resident && a in c.truth && b in c.truth && d in c.truth
    requires Regular(cfg.host) && KeyLe(c, cfg, a, b) && KeyLe(c, cfg, b, d)
    ensures KeyLe(c, cfg, a, d)
  {
    assert cfg.host.le(a, b) && cfg.host.le(b, d) ==> cfg.host.le(a, d);
  }

  /** The key order is antisymmetric, so the least key names one victim. */
  lemma VictimUnique(c: Cache, cfg: Config, v: Id, w: Id)
    requires c.resident.Keys <= c.truth.Keys && Regular(cfg.host) && IsVictim(c, cfg, v) && IsVictim(c, cfg, w)
    ensures v == w
  {
    assert KeyLe(c, cfg, v, w) && KeyLe(c, cfg, w, v);
    assert cfg.host.le(v, w) && cfg.host.le(w, v) ==> v == w;
  }

  ghost function Victim(c: Cache, cfg: Config): (v: Id)
    requires c.resident.Keys <= c.truth.Keys && Regular(cfg.host) && Candidates(c, cfg) != {}
    ensures IsVictim(c, cfg, v)
  {
    LeastKeyExists(c, cfg, Candidates(c, cfg));
    var v :| v in Candidates(c, cfg) && forall u :: u in Candidates(c, cfg) ==> KeyLe(c, cfg, v, u);
    v
  }

  datatype Eviction = Eviction(e: Engine, evicted: seq<Id>)

  /** Evicts least keys until the resident bytes fit; without a candidate it raises. */
  ghost function EvictDown(e: Engine, cfg: Config, now: real): (r: Eviction)
    requires e.c.resident.Keys <= e.c.truth.Keys && Regular(cfg.host)
    ensures r.e.c == e.c.(resident := r.e.c.resident, wasted := r.e.c.wasted)
    ensures r.e.c.resident.Keys <= e.c.resident.Keys
    ensures forall s :: s in r.e.c.resident ==> r.e.c.resident[s] == e.c.resident[s]
    ensures r.e.admitted == e.admitted && (e.failed ==> r.e.failed)
    decreases |e.c.resident|
  {
    if Bytes(e.c) <= cfg.capacity then Eviction(e, [])
    else if Candidates(e.c, cfg) == {} then Eviction(e.(failed := true), [])
    else
      var v := Victim(e.c, cfg);
      var rest := EvictDown(Drop(e, v, now), cfg, now);
      Eviction(rest.e, [v] + rest.evicted)
  }

  function NoteAll(e: Engine, cfg: Config, ids: seq<Id>, now: real, kind: AuditKind): (r: Engine)
    ensures r.c == e.c && r.admitted == e.admitted && (e.failed ==> r.failed)
    ensures r.failed ==> e.failed || Bytes(e.c) > cfg.capacity
  {
    if ids == [] then e else Note(NoteAll(e, cfg, ids[..|ids| - 1], now, kind), cfg, now, kind, Some(ids[|ids| - 1]))
  }

  predicate Explained(audit: seq<Record>, s: Id, now: real) {
    exists r :: r in audit && r.time == now && r.state == Some(s)
                && r.kind in {NoteSkipped, NoteInfeasible, NoteEvicted}
  }

  function NoteAdmissions(e: Engine, cfg: Config, ids: seq<Id>, now: real): (r: Engine)
    ensures r.c == e.c && r.admitted == e.admitted && (e.failed ==> r.failed)
    ensures r.failed ==> e.failed || Bytes(e.c) > cfg.capacity
  {
    if ids == [] then e else
      var before := NoteAdmissions(e, cfg, ids[..|ids| - 1], now);
      var s := ids[|ids| - 1];
      if s in e.c.resident then Note(before, cfg, now, NoteAdmitted, Some(s))
      else if Explained(before.audit, s, now) then before
      else Note(before, cfg, now, NoteSkipped, Some(s))
  }

  /** The evictions of one enforcement. */
  ghost function Shrunk(e: Engine, cfg: Config, now: real): (r: Eviction)
    requires e.c.resident.Keys <= e.c.truth.Keys && Regular(cfg.host)
    ensures e.failed ==> r.e.failed
    ensures r.e.c == e.c.(resident := r.e.c.resident, wasted := r.e.c.wasted, infeasible := r.e.c.infeasible)
    ensures r.e.c.resident.Keys <= e.c.resident.Keys && r.e.admitted == e.admitted
    ensures forall s :: s in r.e.c.resident ==> r.e.c.resident[s] == e.c.resident[s]
  {
    match cfg.policy
    case SessionPinning => Eviction(e.(failed := e.failed || Bytes(e.c) > cfg.capacity), [])
    case LifecycleB4 => EvictDown(if ActiveBytes(e.c) > cfg.capacity then MarkInfeasible(e, cfg, now, None)
        else e, cfg, now)
    case _ => EvictDown(e, cfg, now)
  }

  ghost function Enforce(e: Engine, cfg: Config, now: real): (r: Engine)
    requires e.c.resident.Keys <= e.c.truth.Keys && Regular(cfg.host)
    ensures r.c == Shrunk(e, cfg, now).e.c && (e.failed ==> r.failed)
  {
    var shrunk := Shrunk(e, cfg, now);
    NoteAdmissions(NoteAll(shrunk.e, cfg, shrunk.evicted, now, NoteEvicted), cfg, e.admitted, now)
  }

  // ---------- instants and runs ----------

  /** Everything before the capacity enforcement of an instant. */
  ghost function BeforeEnforcement(e: Engine, p: Case, cfg: Config, batch: seq<Event>, now: real): (r: Engine)
    requires Ready(e.c, p) && Regular(cfg.host) && forall i :: 0 <= i < |batch| ==> KnownNames(p, batch[i].kind)
    ensures Ready(r.c, p) && (e.failed ==> r.failed)
  {
    var updated := PassOver(PassOver(e, p, cfg, Invalidating, batch), p, cfg, Updating, batch);
    var released := TtlExpiries(PolicyReleases(updated, p, cfg, now), cfg, now);
    PassOver(PassOver(released, p, cfg, Reusing, batch).(admitted := []), p, cfg, Admitting, batch)
  }

  ghost function Instant(e: Engine, p: Case, cfg: Config, batch: seq<Event>, now: real): (r: Engine)
    requires Ready(e.c, p) && Regular(cfg.host) && forall i :: 0 <= i < |batch| ==> KnownNames(p, batch[i].kind)
    ensures Ready(r.c, p) && (e.failed ==> r.failed)
  {
    var filled := BeforeEnforcement(e, p, cfg, batch, now);
    Note(Enforce(filled, cfg, now), cfg, now, NoteCheckpoint, None)
  }
}
