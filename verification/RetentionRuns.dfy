/** The main loop of the retention engine: which instants it visits, in which order, and its end. */
module RetentionRuns {
  import opened Entities
  import opened Sorting
  import opened RetentionModel

  // ---------- the external instants ----------

  predicate Increasing(q: seq<real>) {
    forall i, j :: 0 <= i < j < |q| ==> q[i] < q[j]
  }

  /** `t` at its place in an increasing list, unless it is already there. */
  lemma FirstIsLeast(q: seq<real>)
    requires Increasing(q) && q != []
    ensures forall x :: x in q[1..] ==> q[0] < x
    ensures forall x :: x in q <==> x == q[0] || x in q[1..]
  {
    assert q == [q[0]] + q[1..];
  }

  lemma FirstStaysLeast(t: real, rest: seq<real>)
    requires Increasing(rest) && forall x :: x in rest ==> t < x
    ensures Increasing([t] + rest)
  {
    assert forall i :: 0 <= i < |rest| ==> rest[i] in rest;
  }

  function AddTime(q: seq<real>, t: real): (r: seq<real>)
    requires Increasing(q)
    ensures Increasing(r) && forall x :: x in r <==> x in q || x == t
  {
    if q == [] || t < q[0] then [t] + q
    else if t == q[0] then q
    else
      var rest := AddTime(q[1..], t);
      FirstIsLeast(q);
      FirstStaysLeast(q[0], rest);
      [q[0]] + rest
  }

  /** `sorted(external)`: each time of an event once, in increasing order. */
  function ExternalTimes(events: seq<Event>): (r: seq<real>)
    ensures Increasing(r) && forall t :: t in r <==> exists e :: e in events && e.time == t
  {
    if events == [] then [] else
      var n := |events| - 1;
      assert events == events[..n] + [events[n]];
      AddTime(ExternalTimes(events[..n]), events[n].time)
  }

  // ---------- the next instant ----------

  predicate Due(c: Cache, cfg: Config, after: real, s: Id) {
    cfg.policy == FixedTtl && s in c.resident && c.resident[s].expiry.Some? && c.resident[s].expiry.value > after
  }

  ghost predicate Earliest(c: Cache, cfg: Config, after: real, among: set<Id>, s: Id) {
    && s in among && Due(c, cfg, after, s)
    && forall u :: u in among && Due(c, cfg, after, u) ==> c.resident[s].expiry.value <= c.resident[u].expiry.value
  }

  lemma {:induction false} EarliestExists(c: Cache, cfg: Config, after: real, among: set<Id>)
    requires among != {} && forall s :: s in among ==> Due(c, cfg, after, s)
    ensures exists s :: Earliest(c, cfg, after, among, s)
  {
    var x :| x in among;
    var rest := among - {x};
    if rest == {} {
      assert among == {x};
      assert Earliest(c, cfg, after, among, x);
    } else {
      EarliestExists(c, cfg, after, rest);
      var w :| Earliest(c, cfg, after, rest, w);
      var v := if c.resident[w].expiry.value <= c.resident[x].expiry.value then w else x;
      assert forall u :: u in among ==> u == x || u in rest;
      assert Earliest(c, cfg, after, among, v);
    }
  }

  /** The earliest expiry after a time, if any. */
  ghost function NextExpiry(c: Cache, cfg: Config, after: real): (r: Option<real>)
    ensures r.Some? ==> after < r.value && exists s :: Due(c, cfg, after, s) && c.resident[s].expiry == r
    ensures forall s :: Due(c, cfg, after, s) ==> r.Some? && r.value <= c.resident[s].expiry.value
  {
    var due := set s | s in c.resident && Due(c, cfg, after, s);
    assert forall s :: Due(c, cfg, after, s) ==> s in due;
    if due == {} then None else
      EarliestExists(c, cfg, after, due);
      var s :| Earliest(c, cfg, after, due, s);
      c.resident[s].expiry
  }

  predicate Within(t: Option<real>, end: real) { t.Some? && t.value <= end }

  /** The smaller of the two candidates that are not past the Program end. */
  function NextInstant(external: Option<real>, expiry: Option<real>, end: real): Option<real> {
    if Within(external, end) && Within(expiry, end) then (if expiry.value < external.value then expiry else external)
    else if Within(external, end) then external
    else if Within(expiry, end) then expiry
    else None
  }

  function NextExternal(times: seq<real>, k: nat): Option<real> {
    if k < |times| then Some(times[k]) else None
  }

  ghost function Upcoming(e: Engine, p: Case, cfg: Config, times: seq<real>, k: nat, last: real): Option<real> {
    NextInstant(NextExternal(times, k), NextExpiry(e.c, cfg, last), p.end)
  }

  /** The events handled at `now`: those of the next external instant if it is due, none at a bare expiry. */
  function Events(p: Case, times: seq<real>, k: nat, now: real): seq<Event> {
    if NextExternal(times, k) == Some(now) then Batch(p, now) else []
  }

  // ---------- termination ----------

  lemma EmptyPass(e: Engine, p: Case, cfg: Config, now: real)
    requires Ready(e.c, p) && Regular(cfg.host)
    ensures BeforeEnforcement(e, p, cfg, [], now) ==
            TtlExpiries(PolicyReleases(e, p, cfg, now), cfg, now).(admitted := [])
  {
  }

  /** An instant without events only takes States away, and at an expiry it takes at least one. */
  lemma BareInstantShrinks(e: Engine, p: Case, cfg: Config, now: real)
    requires Ready(e.c, p) && Regular(cfg.host) && cfg.policy == FixedTtl
    requires exists s :: s in e.c.resident && e.c.resident[s].expiry == Some(now)
    ensures |Instant(e, p, cfg, [], now).c.resident.Keys| < |e.c.resident.Keys|
  {
    hide PassOver, Shrunk, Enforce;
    EmptyPass(e, p, cfg, now);
    var s :| s in e.c.resident && e.c.resident[s].expiry == Some(now);
    var before := BeforeEnforcement(e, p, cfg, [], now);
    assert s !in before.c.resident && before.c.resident.Keys <= e.c.resident.Keys;
    SubsetSmaller(Instant(e, p, cfg, [], now).c.resident.Keys, e.c.resident.Keys);
  }

  // ---------- the loop ----------

  datatype Loop = Loop(e: Engine, k: nat, last: real)

  /** What every turn of the loop starts from. */
  ghost predicate Turn(l: Loop, p: Case, cfg: Config, times: seq<real>) {
    Ready(l.e.c, p) && Configured(cfg) && WellFormedCase(p) && times == ExternalTimes(p.events) && l.k <= |times|
  }

  lemma BatchKnown(p: Case, times: seq<real>, k: nat, now: real)
    requires WellFormedCase(p)
    ensures forall i :: 0 <= i < |Events(p, times, k, now)| ==> KnownNames(p, Events(p, times, k, now)[i].kind)
  {
    var q := Events(p, times, k, now);
    forall i | 0 <= i < |q| ensures KnownNames(p, q[i].kind) {
      assert q[i] in q;
    }
  }

  /** One turn: the instant at `now`, the external instant consumed if it was due. */
  ghost function Advance(l: Loop, p: Case, cfg: Config, times: seq<real>, now: real): (r: Loop)
    requires Turn(l, p, cfg, times)
    ensures Turn(r, p, cfg, times) && r.last == now && (l.e.failed ==> r.e.failed)
    ensures r.k == if NextExternal(times, l.k) == Some(now) then l.k + 1 else l.k
  {
    hide Ready, WellFormedCase, KnownNames, Events, Instant;
    BatchKnown(p, times, l.k, now);
    Loop(Instant(l.e, p, cfg, Events(p, times, l.k, now), now), if NextExternal(times, l.k) == Some(now) then l.k + 1
        else l.k, now)
  }

  /** The lexicographic measure of the loop: external instants left, then resident States. */
  lemma AdvanceDecreases(l: Loop, p: Case, cfg: Config, times: seq<real>)
    requires Turn(l, p, cfg, times) && Upcoming(l.e, p, cfg, times, l.k, l.last).Some?
    ensures var r := Advance(l, p, cfg, times, Upcoming(l.e, p, cfg, times, l.k, l.last).value);
            r.k > l.k || (r.k == l.k && |r.e.c.resident.Keys| < |l.e.c.resident.Keys|)
  {
    hide Turn, Instant;
    var now := Upcoming(l.e, p, cfg, times, l.k, l.last).value;
    if NextExternal(times, l.k) != Some(now) {
      assert NextExpiry(l.e.c, cfg, l.last) == Some(now);
      var s :| Due(l.e.c, cfg, l.last, s) && l.e.c.resident[s].expiry == Some(now);
      TurnReady(l, p, cfg, times);
      BareInstantShrinks(l.e, p, cfg, now);
    }
  }

  lemma TurnReady(l: Loop, p: Case, cfg: Config, times: seq<real>)
    requires Turn(l, p, cfg, times)
    ensures Ready(l.e.c, p) && Regular(cfg.host) && l.k <= |times|
  {
  }

  lemma TurnOfCase(l: Loop, p: Case, cfg: Config, times: seq<real>)
    requires Turn(l, p, cfg, times)
    ensures WellFormedCase(p)
  {
  }

  ghost function RunFrom(l: Loop, p: Case, cfg: Config, times: seq<real>): (r: Loop)
    requires Turn(l, p, cfg, times)
    ensures Turn(r, p, cfg, times) && (l.e.failed ==> r.e.failed)
    ensures Upcoming(r.e, p, cfg, times, r.k, r.last).None?
    decreases |times| - l.k, |l.e.c.resident.Keys|
  {
    var next := Upcoming(l.e, p, cfg, times, l.k, l.last);
    if next.None? then l else
      AdvanceDecreases(l, p, cfg, times);
      RunFrom(Advance(l, p, cfg, times, next.value), p, cfg, times)
  }

  function FirstTurn(p: Case): Loop {
    Loop(Start(p), 0, p.start - 1.0)
  }

  ghost function Looped(p: Case, cfg: Config): Loop
    requires WellFormedCase(p) && Configured(cfg)
  {
    RunFrom(FirstTurn(p), p, cfg, ExternalTimes(p.events))
  }

  /** Unprocessed events raise; then the remaining States leave at the Program end. */
  ghost function Finish(l: Loop, p: Case, cfg: Config): Engine
    requires Regular(cfg.host)
  {
    SortedNamesIndexed(l.e.c.resident.Keys, cfg.host);
    var checked := l.e.(failed := l.e.failed || l.k != |ExternalTimes(p.events)|);
    Note(ReleaseAll(checked, cfg, SortedNames(l.e.c.resident.Keys, cfg.host), p.end, NoteProgramEnd), cfg, p.end,
        NoteCheckpoint, None)
  }

  /** The whole program under one policy and capacity. */
  ghost function RunProgram(p: Case, cfg: Config): Engine
    requires WellFormedCase(p) && Configured(cfg)
  {
    Finish(Looped(p, cfg), p, cfg)
  }
}
