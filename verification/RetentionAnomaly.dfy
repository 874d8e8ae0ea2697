/**
 Why LRU inclusion needs that no late ADMIT lasts: a program that admits one State again, on which a larger
 LRU cache lacks a State the smaller one holds, and gets fewer reuse hits. The larger cache skips the
 repeated ADMIT, so only the smaller one, which had evicted the State, refreshes its recency.
 */
module RetentionAnomaly {
  import opened Entities
  import opened Sorting
  import opened RetentionModel
  import opened RetentionRuns
  import opened RetentionTime
  import opened RetentionCapacity
  import opened RetentionLruRuns
  import opened RetentionBranch
  import opened RetentionBranchB4

  // ---------- the program ----------

  /** Admissions of a, b, c, a and d, one after the other, then a reuse of a. */
  function Requests(): seq<Event> {
    [Event("1", 0.0, 0, Admit("a")), Event("2", 1.0, 0, Admit("b")), Event("3", 2.0, 0, Admit("c")),
     Event("4", 3.0, 0, Admit("a")), Event("5", 4.0, 0, Admit("d")), Event("6", 5.0, 0, Reuse("a", true))]
  }

  function Program(): Case {
    var spec := StateSpec("s", [LifeWaiting]);
    Case(map["s" := true], map["a" := spec, "b" := spec, "c" := spec, "d" := spec], Requests(), 0.0, 6.0)
  }

  function RequestAt(n: nat): Event
    requires n < 6
  {
    Requests()[n]
  }

  lemma RequestsListed(e: Event)
    ensures |Requests()| == 6
    ensures e in Requests() ==> exists i :: 0 <= i < 6 && e == RequestAt(i)
  {
    if e in Requests() {
      var i :| 0 <= i < 6 && Requests()[i] == e;
      assert e == RequestAt(i);
    }
  }

  lemma RequestsApart(i: nat, j: nat)
    requires i < j < 6
    ensures RequestAt(i).id != RequestAt(j).id && RequestAt(i).time < RequestAt(j).time
    ensures Precedes(RequestAt(i), RequestAt(j))
  {
  }

  lemma RequestKnown(i: nat)
    requires i < 6
    ensures RequestAt(i).time == i as real && KnownNames(Program(), RequestAt(i).kind)
    ensures if i == 5 then RequestAt(i).kind == Reuse("a", true) else RequestAt(i).kind.Admit?
  {
  }

  lemma EachStateAdmitted()
    ensures forall s :: s in Program().states ==> exists e :: e in Requests() && e.kind == Admit(s)
  {
    assert Requests()[0] in Requests() && Requests()[1] in Requests() && Requests()[2] in Requests() &&
           Requests()[4] in Requests();
  }

  lemma ReuseIsLast(e: Event, a: Event)
    requires e in Requests() && a in Requests() && (e.kind.Reuse? || e.kind.Invalidate?) && a.kind.Admit?
    ensures !Precedes(e, a)
  {
  }

  lemma ProgramParts()
    ensures var p := Program();
            && p.events == Requests() && p.start == 0.0 && p.end == 6.0 && "s" in p.sessions && "a" in p.states
            && forall s :: s in p.states ==> p.states[s].session in p.sessions && Supported(p.states[s].dependents)
  {
  }

  lemma ProgramIsWellFormed()
    ensures WellFormedCase(Program())
  {
    hide Requests, Program, KnownNames, Precedes, RequestAt;
    ProgramParts();
    EachStateAdmitted();
    forall e | e in Requests() ensures 0.0 <= e.time <= 6.0 && KnownNames(Program(), e.kind) {
      RequestsListed(e);
      var i :| 0 <= i < 6 && e == RequestAt(i);
      RequestKnown(i);
    }
    RequestsAreIndexed();
    forall i, j | 0 <= i < j < |Requests()|
      ensures Requests()[i].id != Requests()[j].id && Precedes(Requests()[i], Requests()[j])
    {
      RequestsApart(i, j);
    }
    forall e, a | e in Requests() && (e.kind.Reuse? || e.kind.Invalidate?) && a in Requests() && a.kind.Admit?
      ensures !Precedes(e, a)
    {
      ReuseIsLast(e, a);
    }
  }

  lemma RequestsAreIndexed()
    ensures |Requests()| == 6 && forall i :: 0 <= i < 6 ==> Requests()[i] == RequestAt(i)
  {
  }

  // ---------- events at rising times ----------

  predicate Rising(q: seq<Event>) {
    forall i, j :: 0 <= i < j < |q| ==> q[i].time < q[j].time
  }

  lemma {:induction false} AddTimeLast(s: seq<real>, t: real)
    requires Increasing(s) && forall i :: 0 <= i < |s| ==> s[i] < t
    ensures AddTime(s, t) == s + [t]
  {
    if s != [] {
      AddTimeLast(s[1..], t);
    }
  }

  lemma {:induction false} RisingTimes(q: seq<Event>)
    requires Rising(q)
    ensures ExternalTimes(q) == seq(|q|, i requires 0 <= i < |q| => q[i].time)
  {
    if q != [] {
      var n := |q| - 1;
      RisingTimes(q[..n]);
      AddTimeLast(ExternalTimes(q[..n]), q[n].time);
    }
  }

  lemma {:induction false} RisingAt(q: seq<Event>, t: real)
    requires Rising(q)
    ensures (forall i :: 0 <= i < |q| ==> q[i].time != t) ==> At(q, t) == []
    ensures forall i :: 0 <= i < |q| && q[i].time == t ==> At(q, t) == [q[i]]
  {
    if q != [] {
      var n := |q| - 1;
      RisingAt(q[..n], t);
      assert forall i :: 0 <= i < n ==> q[..n][i] == q[i];
    }
  }

  lemma BatchOfOne(p: Case, i: nat)
    requires Rising(p.events) && i < |p.events|
    ensures Batch(p, p.events[i].time) == [p.events[i]]
  {
    RisingAt(p.events, p.events[i].time);
    SortOfSorted([p.events[i]], EventLe);
  }

  // ---------- one instant of an LRU run ----------

  /** Who is resident since which touch; every State valid and nothing reused yet. */
  ghost predicate Shows(c: Cache, m: map<Id, real>) {
    && c.resident.Keys == m.Keys && (forall s :: s in m ==> c.resident[s].touched == m[s])
    && (forall s :: s in c.truth ==> c.truth[s].valid) && c.hits == 0
  }

  ghost predicate Oldest(m: map<Id, real>, v: Id) {
    v in m && forall u :: u in m && u != v ==> m[v] < m[u]
  }

  /** What admitting `s` at `t` does to an LRU cache of k slots; `v` is the State that makes room. */
  function Moved(m: map<Id, real>, k: nat, s: Id, t: real, v: Id): map<Id, real> {
    if s in m then m else if |m| < k then m[s := t] else m[s := t] - {v}
  }

  lemma ShowsSize(c: Cache, m: map<Id, real>)
    requires Shows(c, m)
    ensures |c.resident| == |m|
  {
    assert |c.resident.Keys| == |m.Keys|;
  }

  lemma AdmitStep(e: Engine, p: Case, cfg: Config, ev: Event, m: map<Id, real>)
    requires Ready(e.c, p) && KnownNames(p, ev.kind) && ev.kind.Admit? && cfg.policy == Lru
    requires STATE_BYTES <= cfg.capacity
    requires Shows(e.c, m)
    ensures var s := ev.kind.state; Shows(PassStep(e, p, cfg, Admitting, ev).c, if s in m then m else m[s := ev.time])
  {
    hide Occurrence, Note;
  }

  lemma OldestIsVictim(c: Cache, cfg: Config, m: map<Id, real>, v: Id)
    requires c.resident.Keys <= c.truth.Keys && Regular(cfg.host) && cfg.policy == Lru && Shows(c, m) && Oldest(m, v)
    ensures IsVictim(c, cfg, v)
  {
    forall u | u in c.resident ensures KeyLe(c, cfg, v, u) {
      if u == v {
        KeyLeTotal(c, cfg, v, v);
      }
    }
  }

  lemma DropShows(e: Engine, s: Id, now: real, m: map<Id, real>)
    requires Shows(e.c, m) && s in m
    ensures Shows(Drop(e, s, now).c, m - {s}) && |Drop(e, s, now).c.resident| == |m| - 1
    ensures Drop(e, s, now).c.truth == e.c.truth && Drop(e, s, now).c.resident.Keys <= e.c.resident.Keys
  {
    assert (m - {s}).Keys == m.Keys - {s};
    ShowsSize(Drop(e, s, now).c, m - {s});
  }

  lemma EvictsOldest(e: Engine, cfg: Config, now: real, m: map<Id, real>, v: Id)
    requires e.c.resident.Keys <= e.c.truth.Keys && Regular(cfg.host) && cfg.policy == Lru
    requires Shows(e.c, m) && Oldest(m, v) && cfg.capacity == (|m| - 1) * STATE_BYTES
    ensures Shows(EvictDown(e, cfg, now).e.c, m - {v})
  {
    hide Shows, KeyLe, Drop;
    ShowsSize(e.c, m);
    OldestIsVictim(e.c, cfg, m, v);
    VictimUnique(e.c, cfg, v, Victim(e.c, cfg));
    DropShows(e, v, now, m);
    assert EvictDown(Drop(e, v, now), cfg, now).e == Drop(e, v, now);
  }

  lemma EnforceShows(e: Engine, cfg: Config, now: real, m: map<Id, real>, k: nat, v: Id)
    requires e.c.resident.Keys <= e.c.truth.Keys && Regular(cfg.host) && cfg.policy == Lru
    requires cfg.capacity == k * STATE_BYTES
    requires Shows(e.c, m) && |m| <= k + 1 && (|m| == k + 1 ==> Oldest(m, v))
    ensures Shows(Enforce(e, cfg, now).c, if |m| == k + 1 then m - {v} else m)
  {
    hide NoteAdmissions, NoteAll;
    ShowsSize(e.c, m);
    if |m| == k + 1 {
      EvictsOldest(e, cfg, now, m, v);
    } else {
      assert |m| * STATE_BYTES <= k * STATE_BYTES;
    }
  }

  lemma PassOfOne(e: Engine, p: Case, cfg: Config, pass: Pass, ev: Event)
    requires Ready(e.c, p) && KnownNames(p, ev.kind)
    ensures PassOver(e, p, cfg, pass, [ev]) == PassStep(e, p, cfg, pass, ev)
  {
    hide PassStep, Ready, KnownNames;
    assert [ev][..0] == [];
  }

  lemma QuietAdmission(e: Engine, p: Case, cfg: Config, ev: Event, m: map<Id, real>)
    requires Ready(e.c, p) && Regular(cfg.host) && KnownNames(p, ev.kind) && ev.kind.Admit? && cfg.policy == Lru
    requires Shows(e.c, m)
    ensures Shows(AtAdmission(e, p, cfg, [ev], ev.time).c, m)
  {
    hide PassOver, PolicyReleases, TtlExpiries;
    QuietPass(e, p, cfg, Invalidating, [ev]);
    QuietPass(e, p, cfg, Updating, [ev]);
    LruReleasesNothing(e, p, cfg, ev.time);
    QuietPass(TtlExpiries(PolicyReleases(e, p, cfg, ev.time), cfg, ev.time), p, cfg, Reusing, [ev]);
  }

  /** The instant of a single event. */
  ghost function InstantOf(e: Engine, p: Case, cfg: Config, ev: Event): Engine
    requires Ready(e.c, p) && Regular(cfg.host) && KnownNames(p, ev.kind)
  {
    Instant(e, p, cfg, [ev], ev.time)
  }

  lemma AdmitInstant(e: Engine, p: Case, cfg: Config, ev: Event, m: map<Id, real>, k: nat, v: Id)
    requires Ready(e.c, p) && Regular(cfg.host) && KnownNames(p, ev.kind) && ev.kind.Admit?
    requires cfg.policy == Lru && cfg.capacity == k * STATE_BYTES && k > 0
    requires Shows(e.c, m) && |m| <= k && (|m| == k && ev.kind.state !in m ==> Oldest(m[ev.kind.state := ev.time], v))
    ensures Shows(InstantOf(e, p, cfg, ev).c, Moved(m, k, ev.kind.state, ev.time, v))
  {
    hide Shows, PassStep, PassOver, Enforce, AtAdmission, BeforeEnforcement, Ready, Oldest;
    var s := ev.kind.state;
    QuietAdmission(e, p, cfg, ev, m);
    var at := AtAdmission(e, p, cfg, [ev], ev.time);
    AdmitStep(at, p, cfg, ev, m);
    PassOfOne(at, p, cfg, Admitting, ev);
    var filled := BeforeEnforcement(e, p, cfg, [ev], ev.time);
    ReadyInside(filled.c, p);
    var m' := if s in m then m else m[s := ev.time];
    assert s !in m ==> |m'| == |m| + 1;
    EnforceShows(filled, cfg, ev.time, m', k, v);
  }

  lemma ReuseReaches(e: Engine, p: Case, cfg: Config, ev: Event)
    requires Ready(e.c, p) && Regular(cfg.host) && KnownNames(p, ev.kind) && cfg.policy == Lru && ev.kind.Reuse?
    ensures var c := AtReuse(e, p, cfg, [ev], ev.time).c; c.resident == e.c.resident && c.truth == e.c.truth
  {
    hide PolicyReleases, TtlExpiries, PassOver;
    PassOfOne(e, p, cfg, Invalidating, ev);
    PassOfOne(e, p, cfg, Updating, ev);
    LruReleasesNothing(e, p, cfg, ev.time);
  }

  lemma OneReuse(ev: Event, r: set<Id>)
    requires ev.kind.Reuse?
    ensures DistinctReuses([ev]) && |ReuseStates([ev]) * r| == if ev.kind.state in r then 1 else 0
  {
    OneMoreCommon({}, r, ev.kind.state);
    assert [ev][0] == ev && ReuseStates([ev]) == {} + {ev.kind.state};
    assert {} * r == {};
  }

  lemma ReuseInstant(e: Engine, p: Case, cfg: Config, ev: Event, m: map<Id, real>)
    requires Ready(e.c, p) && Regular(cfg.host) && KnownNames(p, ev.kind) && cfg.policy == Lru && Shows(e.c, m)
    requires ev.kind.Reuse? && ev.kind.semanticValid
    ensures InstantOf(e, p, cfg, ev).c.hits == if ev.kind.state in m then 1 else 0
  {
    hide Instant, AtReuse, DistinctReuses, ReuseStates, Ready;
    ReuseReaches(e, p, cfg, ev);
    var c := AtReuse(e, p, cfg, [ev], ev.time).c;
    ReadyStates(e.c, p, ev.kind);
    OneReuse(ev, c.resident.Keys);
    InstantHits(e, p, cfg, [ev], ev.time);
  }

  lemma ReadyStates(c: Cache, p: Case, k: EventKind)
    requires Ready(c, p) && KnownNames(p, k) && k.Reuse?
    ensures k.state in c.truth
  {
  }

  // ---------- the two runs ----------

  ghost predicate LruOf(cfg: Config, k: nat) {
    Configured(cfg) && cfg.policy == Lru && cfg.capacity == k * STATE_BYTES && k > 0
  }

  lemma SixInstants()
    ensures WellFormedCase(Program()) && Rising(Requests()) && |ExternalTimes(Program().events)| == 6
    ensures forall n :: 0 <= n < 6 ==> ExternalTimes(Program().events)[n] == n as real
  {
    hide Requests, Program, RequestAt, WellFormedCase;
    ProgramIsWellFormed();
    ProgramParts();
    RequestsAreIndexed();
    forall i, j | 0 <= i < j < 6 ensures Requests()[i].time < Requests()[j].time {
      RequestsApart(i, j);
    }
    forall n | 0 <= n < 6 ensures Requests()[n].time == n as real {
      RequestKnown(n);
    }
    RisingTimes(Requests());
  }

  /** The run after its first n events. */
  ghost function AfterEvents(cfg: Config, n: nat): Loop
    requires Configured(cfg) && n <= 6
  {
    SixInstants();
    LruAfter(Program(), cfg, n)
  }

  function StateAt(n: nat): Id
    requires n < 6
  {
    RequestAt(n).kind.state
  }

  lemma NextInstantOf(cfg: Config, n: nat)
    requires Configured(cfg) && n < 6
    ensures Ready(AfterEvents(cfg, n).e.c, Program()) && Regular(cfg.host) && KnownNames(Program(), RequestAt(n).kind)
    ensures AfterEvents(cfg, n + 1).e == InstantOf(AfterEvents(cfg, n).e, Program(), cfg, RequestAt(n))
  {
    var p, times := Program(), ExternalTimes(Program().events);
    hide WellFormedCase, Instant, Clock, Batch, ExternalTimes, Start, Program, Requests, RequestAt, Rising,
        KnownNames, Ready;
    SixInstants();
    ProgramParts();
    RequestsAreIndexed();
    RequestKnown(n);
    BatchOfOne(p, n);
    FirstTurnClock(p, cfg);
    TurnReady(LruAfter(p, cfg, n), p, cfg, times);
  }

  lemma AdmitNext(cfg: Config, k: nat, n: nat, m: map<Id, real>, v: Id)
    requires LruOf(cfg, k) && n < 5 && Shows(AfterEvents(cfg, n).e.c, m) && |m| <= k
    requires |m| == k && StateAt(n) !in m ==> Oldest(m[StateAt(n) := n as real], v)
    ensures Shows(AfterEvents(cfg, n + 1).e.c, Moved(m, k, StateAt(n), n as real, v))
  {
    hide Shows, InstantOf, Ready, KnownNames, AfterEvents, Oldest, Moved, RequestAt, Program;
    NextInstantOf(cfg, n);
    RequestKnown(n);
    AdmitInstant(AfterEvents(cfg, n).e, Program(), cfg, RequestAt(n), m, k, v);
  }

  lemma StartsShown(cfg: Config)
    requires Configured(cfg)
    ensures Shows(AfterEvents(cfg, 0).e.c, map[])
  {
    hide WellFormedCase;
  }

  lemma Wanted()
    ensures StateAt(0) == "a" && StateAt(1) == "b" && StateAt(2) == "c" && StateAt(3) == "a" && StateAt(4) == "d"
  {
  }

  lemma SmallMoves()
    ensures Moved(map[], 2, "a", 0.0, "") == map["a" := 0.0]
    ensures Moved(map["a" := 0.0], 2, "b", 1.0, "") == map["a" := 0.0, "b" := 1.0]
    ensures Moved(map["a" := 0.0, "b" := 1.0], 2, "c", 2.0, "a") == map["b" := 1.0, "c" := 2.0]
    ensures Moved(map["b" := 1.0, "c" := 2.0], 2, "a", 3.0, "b") == map["c" := 2.0, "a" := 3.0]
    ensures Moved(map["c" := 2.0, "a" := 3.0], 2, "d", 4.0, "c") == map["a" := 3.0, "d" := 4.0]
  {
    assert map["a" := 0.0, "b" := 1.0]["c" := 2.0] - {"a"} == map["b" := 1.0, "c" := 2.0];
    assert map["b" := 1.0, "c" := 2.0]["a" := 3.0] - {"b"} == map["c" := 2.0, "a" := 3.0];
    assert map["c" := 2.0, "a" := 3.0]["d" := 4.0] - {"c"} == map["a" := 3.0, "d" := 4.0];
  }

  lemma SmallVictims()
    ensures Oldest(map["a" := 0.0, "b" := 1.0]["c" := 2.0], "a")
    ensures Oldest(map["b" := 1.0, "c" := 2.0]["a" := 3.0], "b")
    ensures Oldest(map["c" := 2.0, "a" := 3.0]["d" := 4.0], "c")
  {
  }

  /** Two slots: a was evicted when it is admitted again, so it is recent and survives d. */
  lemma SmallRun(cfg: Config)
    requires LruOf(cfg, 2)
    ensures Shows(AfterEvents(cfg, 5).e.c, map["a" := 3.0, "d" := 4.0])
  {
    hide Shows, AfterEvents, Oldest, Moved, StateAt;
    Wanted();
    SmallMoves();
    SmallVictims();
    StartsShown(cfg);
    AdmitNext(cfg, 2, 0, map[], "");
    AdmitNext(cfg, 2, 1, map["a" := 0.0], "");
    AdmitNext(cfg, 2, 2, map["a" := 0.0, "b" := 1.0], "a");
    AdmitNext(cfg, 2, 3, map["b" := 1.0, "c" := 2.0], "b");
    AdmitNext(cfg, 2, 4, map["c" := 2.0, "a" := 3.0], "c");
  }

  lemma LargeMoves()
    ensures Moved(map[], 3, "a", 0.0, "") == map["a" := 0.0]
    ensures Moved(map["a" := 0.0], 3, "b", 1.0, "") == map["a" := 0.0, "b" := 1.0]
    ensures Moved(map["a" := 0.0, "b" := 1.0], 3, "c", 2.0, "") == map["a" := 0.0, "b" := 1.0, "c" := 2.0]
    ensures Moved(map["a" := 0.0, "b" := 1.0, "c" := 2.0], 3, "a", 3.0, "") == map["a" := 0.0, "b" := 1.0, "c" := 2.0]
    ensures Moved(map["a" := 0.0, "b" := 1.0, "c" := 2.0], 3, "d", 4.0, "a") == map["b" := 1.0, "c" := 2.0, "d" := 4.0]
    ensures Oldest(map["a" := 0.0, "b" := 1.0, "c" := 2.0]["d" := 4.0], "a")
  {
    assert map["a" := 0.0, "b" := 1.0, "c" := 2.0]["d" := 4.0] - {"a"} == map["b" := 1.0, "c" := 2.0, "d" := 4.0];
  }

  /** Three slots: a is still resident when it is admitted again, stays the oldest, and makes room for d. */
  lemma LargeRun(cfg: Config)
    requires LruOf(cfg, 3)
    ensures Shows(AfterEvents(cfg, 5).e.c, map["b" := 1.0, "c" := 2.0, "d" := 4.0])
  {
    hide Shows, AfterEvents, Oldest, Moved, StateAt;
    Wanted();
    LargeMoves();
    StartsShown(cfg);
    AdmitNext(cfg, 3, 0, map[], "");
    AdmitNext(cfg, 3, 1, map["a" := 0.0], "");
    AdmitNext(cfg, 3, 2, map["a" := 0.0, "b" := 1.0], "");
    AdmitNext(cfg, 3, 3, map["a" := 0.0, "b" := 1.0, "c" := 2.0], "");
    AdmitNext(cfg, 3, 4, map["a" := 0.0, "b" := 1.0, "c" := 2.0], "a");
  }

  lemma LastHits(cfg: Config, m: map<Id, real>)
    requires Configured(cfg) && cfg.policy == Lru && Shows(AfterEvents(cfg, 5).e.c, m) && WellFormedCase(Program())
    ensures RunProgram(Program(), cfg).c.hits == if "a" in m then 1 else 0
  {
    hide Shows, WellFormedCase, InstantOf, RunProgram, Ready, KnownNames, Program, RequestAt, LruAfter;
    SixInstants();
    NextInstantOf(cfg, 5);
    RequestKnown(5);
    ReuseInstant(AfterEvents(cfg, 5).e, Program(), cfg, RequestAt(5), m);
    LruRunCounts(Program(), cfg);
  }

  /** With a repeated ADMIT the larger cache can lack a State of the smaller one and get fewer hits. */
  lemma RepeatedAdmitBreaksInclusion(small: Config, large: Config)
    requires LruOf(small, 2) && LruOf(large, 3)
    ensures WellFormedCase(Program()) && |ExternalTimes(Program().events)| == 6
    ensures "a" in LruAfter(Program(), small, 5).e.c.resident && "a" !in LruAfter(Program(), large, 5).e.c.resident
    ensures RunProgram(Program(), large).c.hits < RunProgram(Program(), small).c.hits
  {
    hide LruAfter, WellFormedCase, RunProgram, Program;
    SixInstants();
    SmallRun(small);
    LargeRun(large);
    LastHits(small, map["a" := 3.0, "d" := 4.0]);
    LastHits(large, map["b" := 1.0, "c" := 2.0, "d" := 4.0]);
  }
}
