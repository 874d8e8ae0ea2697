/**
 The slot scheduler of one program: every worker has as many slots as its capacity, each operation
 takes the slot of its worker that frees first, and a SERIAL program also waits for the previous
 operation. Times are reals.
 */
module Scheduler {
  import opened Entities

  datatype Topology = Serial | Fanout

  datatype Placement = Placement(worker: Option<Id>, service: real)

  /** `ready` has one entry per worker, as the case leaves it after filling in the default. */
  datatype ProgramCase = ProgramCase(
    topology: Topology, releases: seq<real>, start: real, capacity: map<Id, nat>, ready: map<Id, real>)

  ghost predicate WellFormed(c: ProgramCase) {
    && c.releases != [] && (forall k :: 0 <= k < |c.releases| ==> c.releases[k] >= c.start)
    && c.ready.Keys == c.capacity.Keys
    && forall w :: w in c.capacity ==> c.capacity[w] > 0 && c.ready[w] >= c.start
  }

  datatype Span = Span(start: real, completion: real)

  datatype Outcome =
    | Unplaced
    | Failed(error: Error)
    | Planned(spans: seq<Span>, terminal: real, completionTime: real, fanoutTime: Option<real>)

  function Max(a: real, b: real): real {
    if a >= b then a else b
  }

  /** The first of the slots that free earliest. */
  function Earliest(q: seq<real>): (i: nat)
    requires q != []
    ensures i < |q| && (forall j :: 0 <= j < |q| ==> q[i] <= q[j]) && forall j :: 0 <= j < i ==> q[i] < q[j]
  {
    if |q| == 1 then 0
    else
      var i := Earliest(q[..|q| - 1]);
      if q[|q| - 1] < q[i] then |q| - 1 else i
  }

  // ---------- the run of the loop as a function ----------

  /** When each slot frees, and when the operation before finished. */
  datatype Board = Board(slots: map<Id, seq<real>>, dependency: real)

  predicate Known(c: ProgramCase, p: Placement) {
    p.worker.Some? && p.worker.value in c.capacity
  }

  predicate KnownUpTo(c: ProgramCase, ps: seq<Placement>, n: nat) {
    n <= |ps| && n <= |c.releases| && forall k :: 0 <= k < n ==> Known(c, ps[k])
  }

  ghost predicate Fits(c: ProgramCase, b: Board) {
    b.slots.Keys == c.capacity.Keys && forall w :: w in c.capacity ==> |b.slots[w]| == c.capacity[w]
  }

  function Opening(c: ProgramCase): (b: Board)
    requires WellFormed(c)
    ensures Fits(c, b)
  {
    Board(map w | w in c.capacity :: seq(c.capacity[w], _ => c.ready[w]), c.start)
  }

  function SpanOn(c: ProgramCase, b: Board, k: nat, p: Placement): Span
    requires WellFormed(c) && Fits(c, b) && k < |c.releases| && Known(c, p)
  {
    var q := b.slots[p.worker.value];
    var gate := if c.topology.Serial? then b.dependency else c.start;
    var start := Max(c.releases[k], Max(gate, q[Earliest(q)]));
    Span(start, start + p.service)
  }

  function Next(c: ProgramCase, b: Board, k: nat, p: Placement): (b': Board)
    requires WellFormed(c) && Fits(c, b) && k < |c.releases| && Known(c, p)
    ensures Fits(c, b')
  {
    var w, completion := p.worker.value, SpanOn(c, b, k, p).completion;
    Board(b.slots[w := b.slots[w][Earliest(b.slots[w]) := completion]],
          if c.topology.Serial? then completion else b.dependency)
  }

  function BoardAt(c: ProgramCase, ps: seq<Placement>, n: nat): (b: Board)
    requires WellFormed(c) && KnownUpTo(c, ps, n)
    ensures Fits(c, b)
  {
    if n == 0 then Opening(c) else Next(c, BoardAt(c, ps, n - 1), n - 1, ps[n - 1])
  }

  /** Every operation has a worker of the case and a service time that is not negative. */
  ghost predicate Runnable(c: ProgramCase, ps: seq<Placement>) {
    && WellFormed(c) && |ps| == |c.releases| && KnownUpTo(c, ps, |ps|)
    && forall k :: 0 <= k < |ps| ==> ps[k].service >= 0.0
  }

  function SpanAt(c: ProgramCase, ps: seq<Placement>, k: nat): Span
    requires WellFormed(c) && KnownUpTo(c, ps, k + 1)
  {
    SpanOn(c, BoardAt(c, ps, k), k, ps[k])
  }

  function SlotAt(c: ProgramCase, ps: seq<Placement>, k: nat): (i: nat)
    requires WellFormed(c) && KnownUpTo(c, ps, k + 1)
    ensures i < c.capacity[ps[k].worker.value]
  {
    Earliest(BoardAt(c, ps, k).slots[ps[k].worker.value])
  }

  /** One turn of the loop: one slot of one worker moves on, to the completion of the operation. */
  lemma Turn(c: ProgramCase, ps: seq<Placement>, k: nat)
    requires WellFormed(c) && KnownUpTo(c, ps, k + 1)
    ensures SpanAt(c, ps, k) == SpanOn(c, BoardAt(c, ps, k), k, ps[k])
    ensures BoardAt(c, ps, k + 1) == Next(c, BoardAt(c, ps, k), k, ps[k])
  {
  }

  /** The method of the source: the same branches and errors, the slot lists updated in a loop. */
  method Schedule(c: ProgramCase, ps: seq<Placement>) returns (o: Outcome)
    requires WellFormed(c)
    ensures o.Unplaced? <==> exists k :: 0 <= k < |ps| && ps[k].worker.None?
    ensures o == Failed(KeyError) <==>
              !o.Unplaced? && exists k :: 0 <= k < |ps| && k < |c.releases| && !Known(c, ps[k])
    ensures o == Failed(ValueError) <==>
              !o.Unplaced? && |ps| != |c.releases| && forall k :: 0 <= k < |ps| && k < |c.releases| ==> Known(c, ps[k])
    ensures o.Failed? ==> o.error in {KeyError, ValueError}
    ensures o.Planned? ==> |o.spans| == |ps| == |c.releases| && KnownUpTo(c, ps, |ps|)
    ensures o.Planned? ==> forall k :: 0 <= k < |ps| ==> o.spans[k] == SpanAt(c, ps, k)
    ensures o.Planned? ==> forall k :: 0 <= k < |ps| ==> SpanAt(c, ps, k).completion <= o.terminal
    ensures o.Planned? ==> exists k :: 0 <= k < |ps| && SpanAt(c, ps, k).completion == o.terminal
    ensures o.Planned? ==> o.completionTime == o.terminal - c.start
    ensures o.Planned? ==> o.fanoutTime == if c.topology.Fanout? then Some(o.completionTime) else None
  {
    hide SpanAt, BoardAt;
    if k :| 0 <= k < |ps| && ps[k].worker.None? {
      return Unplaced;
    }
    var placed, spans := PlaceAll(c, ps);
    if !placed {
      return Failed(KeyError);
    }
    if |ps| != |c.releases| {
      return Failed(ValueError);
    }
    var terminal := Latest(spans);
    var elapsed := terminal - c.start;
    o := Planned(spans, terminal, elapsed, if c.topology.Fanout? then Some(elapsed) else None);
  }

  method PlaceAll(c: ProgramCase, ps: seq<Placement>) returns (placed: bool, spans: seq<Span>)
    requires WellFormed(c) && forall k :: 0 <= k < |ps| ==> ps[k].worker.Some?
    ensures !placed ==> exists k :: 0 <= k < |ps| && k < |c.releases| && !Known(c, ps[k])
    ensures placed ==> |spans| == (if |ps| < |c.releases| then |ps| else |c.releases|) && KnownUpTo(c, ps, |spans|)
    ensures placed ==> forall k :: 0 <= k < |spans| ==> spans[k] == SpanAt(c, ps, k)
  {
    hide SpanAt, BoardAt, Opening;
    var slots := Opening(c).slots;
    var dependency := c.start;
    spans := [];
    BoardStarts(c, ps);
    var k := 0;
    while k < |ps| && k < |c.releases|
      invariant k <= |ps| && k <= |c.releases| && KnownUpTo(c, ps, k)
      invariant Board(slots, dependency) == BoardAt(c, ps, k)
      invariant |spans| == k && forall j :: 0 <= j < k ==> spans[j] == SpanAt(c, ps, j)
    {
      var w := ps[k].worker.value;
      if w !in slots {
        return false, spans;
      }
      var index := Earliest(slots[w]);
      var start := Max(c.releases[k], Max(if c.topology.Serial? then dependency else c.start, slots[w][index]));
      var completion := start + ps[k].service;
      Turn(c, ps, k);
      slots := slots[w := slots[w][index := completion]];
      if c.topology.Serial? {
        dependency := completion;
      }
      spans := spans + [Span(start, completion)];
      k := k + 1;
    }
    placed := true;
  }

  lemma BoardStarts(c: ProgramCase, ps: seq<Placement>)
    requires WellFormed(c)
    ensures BoardAt(c, ps, 0) == Opening(c) && Opening(c).dependency == c.start
  {
  }

  method Latest(spans: seq<Span>) returns (t: real)
    requires spans != []
    ensures forall k :: 0 <= k < |spans| ==> spans[k].completion <= t
    ensures exists k :: 0 <= k < |spans| && spans[k].completion == t
  {
    t := spans[0].completion;
    for k := 1 to |spans|
      invariant forall j :: 0 <= j < k ==> spans[j].completion <= t
      invariant exists j :: 0 <= j < k && spans[j].completion == t
    {
      t := Max(t, spans[k].completion);
    }
  }

  // ---------- no worker is oversubscribed ----------

  lemma SlotMoves(c: ProgramCase, ps: seq<Placement>, k: nat, w: Id, i: nat)
    requires Runnable(c, ps) && k < |ps| && w in c.capacity && i < c.capacity[w]
    ensures BoardAt(c, ps, k + 1).slots[w][i] ==
            if ps[k].worker == Some(w) && SlotAt(c, ps, k) == i then SpanAt(c, ps, k).completion
            else BoardAt(c, ps, k).slots[w][i]
  {
    hide BoardAt, SpanOn;
    Turn(c, ps, k);
  }

  lemma SpanIsDue(c: ProgramCase, ps: seq<Placement>, k: nat)
    requires Runnable(c, ps) && k < |ps|
    ensures var q := BoardAt(c, ps, k).slots[ps[k].worker.value];
            var gate := if c.topology.Serial? then BoardAt(c, ps, k).dependency else c.start;
            SpanAt(c, ps, k).start == Max(c.releases[k], Max(gate, q[SlotAt(c, ps, k)]))
    ensures SpanAt(c, ps, k).completion == SpanAt(c, ps, k).start + ps[k].service
    ensures ps[k].service >= 0.0
    ensures BoardAt(c, ps, k + 1).dependency ==
            if c.topology.Serial? then SpanAt(c, ps, k).completion else BoardAt(c, ps, k).dependency
  {
    hide BoardAt;
    Turn(c, ps, k);
  }

  lemma {:induction false} SlotsGrow(c: ProgramCase, ps: seq<Placement>, j: nat, n: nat, w: Id, i: nat)
    requires Runnable(c, ps) && j <= n <= |ps| && w in c.capacity && i < c.capacity[w]
    ensures BoardAt(c, ps, j).slots[w][i] <= BoardAt(c, ps, n).slots[w][i]
    decreases n
  {
    hide BoardAt, SpanAt, SlotAt;
    if j < n {
      SlotsGrow(c, ps, j, n - 1, w, i);
      SlotMoves(c, ps, n - 1, w, i);
      SpanIsDue(c, ps, n - 1);
    }
  }

  /** Two operations that took the same slot of the same worker do not overlap. */
  lemma SameSlotWaits(c: ProgramCase, ps: seq<Placement>, j: nat, k: nat)
    requires Runnable(c, ps) && j < k < |ps|
    requires ps[j].worker == ps[k].worker && SlotAt(c, ps, j) == SlotAt(c, ps, k)
    ensures SpanAt(c, ps, j).completion <= SpanAt(c, ps, k).start
  {
    hide BoardAt, SpanAt, SlotAt;
    var w, i := ps[j].worker.value, SlotAt(c, ps, j);
    SlotMoves(c, ps, j, w, i);
    SlotsGrow(c, ps, j + 1, k, w, i);
    SpanIsDue(c, ps, k);
  }

  ghost predicate Runs(c: ProgramCase, ps: seq<Placement>, k: nat, w: Id, t: real)
    requires Runnable(c, ps) && k < |ps|
  {
    ps[k].worker == Some(w) && SpanAt(c, ps, k).start <= t < SpanAt(c, ps, k).completion
  }

  /** The first `n` operations that worker `w` is running at time `t`. */
  ghost function RunningAt(c: ProgramCase, ps: seq<Placement>, n: nat, w: Id, t: real): (s: set<nat>)
    requires Runnable(c, ps) && n <= |ps|
    ensures forall k :: k in s <==> 0 <= k < n && Runs(c, ps, k, w, t)
  {
    if n == 0 then {}
    else RunningAt(c, ps, n - 1, w, t) + (if Runs(c, ps, n - 1, w, t) then {n - 1} else {})
  }

  /** The slots those operations occupy. */
  ghost function Occupied(c: ProgramCase, ps: seq<Placement>, n: nat, w: Id, t: real): (s: set<nat>)
    requires Runnable(c, ps) && n <= |ps|
  {
    if n == 0 then {}
    else Occupied(c, ps, n - 1, w, t) + (if Runs(c, ps, n - 1, w, t) then {SlotAt(c, ps, n - 1)} else {})
  }

  lemma RunningSlotsDiffer(c: ProgramCase, ps: seq<Placement>, j: nat, k: nat, w: Id, t: real)
    requires Runnable(c, ps) && j < k < |ps| && Runs(c, ps, j, w, t) && Runs(c, ps, k, w, t)
    ensures SlotAt(c, ps, j) != SlotAt(c, ps, k)
  {
    hide BoardAt, SpanAt, SlotAt;
    if SlotAt(c, ps, j) == SlotAt(c, ps, k) {
      SameSlotWaits(c, ps, j, k);
    }
  }

  lemma {:induction false} Occupant(c: ProgramCase, ps: seq<Placement>, n: nat, w: Id, t: real, i: nat) returns (j: nat)
    requires Runnable(c, ps) && n <= |ps| && i in Occupied(c, ps, n, w, t)
    ensures j < n && Runs(c, ps, j, w, t) && SlotAt(c, ps, j) == i
  {
    hide BoardAt, SpanAt, SlotAt, Runs;
    if Runs(c, ps, n - 1, w, t) && SlotAt(c, ps, n - 1) == i {
      j := n - 1;
    } else {
      j := Occupant(c, ps, n - 1, w, t, i);
    }
  }

  lemma OccupantIsOnTheWorker(c: ProgramCase, ps: seq<Placement>, n: nat, w: Id, t: real, i: nat)
    requires Runnable(c, ps) && n <= |ps| && i in Occupied(c, ps, n, w, t)
    ensures w in c.capacity && i < c.capacity[w]
  {
    hide BoardAt, SpanAt, SlotAt, Occupied;
    var j := Occupant(c, ps, n, w, t, i);
  }

  lemma ItsSlotWasFree(c: ProgramCase, ps: seq<Placement>, k: nat, w: Id, t: real)
    requires Runnable(c, ps) && k < |ps| && Runs(c, ps, k, w, t)
    ensures SlotAt(c, ps, k) !in Occupied(c, ps, k, w, t)
  {
    hide BoardAt, SpanAt, SlotAt, Runs, Occupied;
    if SlotAt(c, ps, k) in Occupied(c, ps, k, w, t) {
      var j := Occupant(c, ps, k, w, t, SlotAt(c, ps, k));
      RunningSlotsDiffer(c, ps, j, k, w, t);
    }
  }

  lemma OneMore(c: ProgramCase, ps: seq<Placement>, n: nat, w: Id, t: real)
    requires Runnable(c, ps) && n < |ps|
    ensures RunningAt(c, ps, n + 1, w, t) == RunningAt(c, ps, n, w, t) + (if Runs(c, ps, n, w, t) then {n} else {})
    ensures n !in RunningAt(c, ps, n, w, t)
    ensures Occupied(c, ps, n + 1, w, t) ==
            Occupied(c, ps, n, w, t) + (if Runs(c, ps, n, w, t) then {SlotAt(c, ps, n)} else {})
  {
    hide BoardAt, SpanAt, SlotAt, Runs, WellFormed;
  }

  lemma {:induction false} EachInItsOwnSlot(c: ProgramCase, ps: seq<Placement>, n: nat, w: Id, t: real)
    requires Runnable(c, ps) && n <= |ps|
    ensures |RunningAt(c, ps, n, w, t)| == |Occupied(c, ps, n, w, t)|
  {
    hide BoardAt, SpanAt, SlotAt, Runs, RunningAt, Occupied, WellFormed;
    if n == 0 {
      NothingRuns(c, ps, w, t);
    } else {
      EachInItsOwnSlot(c, ps, n - 1, w, t);
      OneMore(c, ps, n - 1, w, t);
      if Runs(c, ps, n - 1, w, t) {
        ItsSlotWasFree(c, ps, n - 1, w, t);
      }
    }
  }

  lemma NothingRuns(c: ProgramCase, ps: seq<Placement>, w: Id, t: real)
    requires Runnable(c, ps)
    ensures RunningAt(c, ps, 0, w, t) == {} && Occupied(c, ps, 0, w, t) == {}
  {
  }

  lemma {:induction false} BelowIsFew(s: set<nat>, m: nat)
    requires forall i :: i in s ==> i < m
    ensures |s| <= m
  {
    if m > 0 {
      BelowIsFew(s - {m - 1}, m - 1);
    } else {
      assert s == {};
    }
  }

  /** At no time does a worker run more operations than it has capacity for. */
  lemma CapacityRespected(c: ProgramCase, ps: seq<Placement>, w: Id, t: real)
    requires Runnable(c, ps) && w in c.capacity
    ensures |RunningAt(c, ps, |ps|, w, t)| <= c.capacity[w]
  {
    hide BoardAt, SpanAt, SlotAt;
    EachInItsOwnSlot(c, ps, |ps|, w, t);
    forall i | i in Occupied(c, ps, |ps|, w, t) ensures i < c.capacity[w] {
      OccupantIsOnTheWorker(c, ps, |ps|, w, t, i);
    }
    BelowIsFew(Occupied(c, ps, |ps|, w, t), c.capacity[w]);
  }

  /** No operation starts before its release, its worker or its program is ready. */
  lemma NothingStartsEarly(c: ProgramCase, ps: seq<Placement>, k: nat)
    requires Runnable(c, ps) && k < |ps|
    ensures SpanAt(c, ps, k).start >= c.releases[k] >= c.start
    ensures SpanAt(c, ps, k).start >= c.ready[ps[k].worker.value]
  {
    hide BoardAt, SpanAt, SlotAt;
    SlotsGrow(c, ps, 0, k, ps[k].worker.value, SlotAt(c, ps, k));
    SpanIsDue(c, ps, k);
    SlotsOpen(c, ps, ps[k].worker.value, SlotAt(c, ps, k));
  }

  lemma SlotsOpen(c: ProgramCase, ps: seq<Placement>, w: Id, i: nat)
    requires Runnable(c, ps) && w in c.capacity && i < c.capacity[w]
    ensures BoardAt(c, ps, 0).slots[w] == seq(c.capacity[w], _ => c.ready[w])
    ensures BoardAt(c, ps, 0).slots[w][i] == c.ready[w] && BoardAt(c, ps, 0).dependency == c.start
  {
  }

  // ---------- SERIAL programs ----------

  /** The earliest moment operation `k` could start if it were alone. */
  function Available(c: ProgramCase, ps: seq<Placement>, k: nat): real
    requires WellFormed(c) && KnownUpTo(c, ps, k + 1)
  {
    Max(c.releases[k], c.ready[ps[k].worker.value])
  }

  function ServiceBetween(ps: seq<Placement>, j: nat, n: nat): real
    requires j <= n <= |ps|
  {
    if j == n then 0.0 else ServiceBetween(ps, j, n - 1) + ps[n - 1].service
  }

  lemma {:induction false} SerialSlots(c: ProgramCase, ps: seq<Placement>, n: nat, w: Id, i: nat)
    requires Runnable(c, ps) && c.topology.Serial? && n <= |ps| && w in c.capacity && i < c.capacity[w]
    ensures BoardAt(c, ps, n).dependency >= c.start
    ensures var q := BoardAt(c, ps, n).slots[w];
            q[i] == c.ready[w] || c.ready[w] <= q[i] <= BoardAt(c, ps, n).dependency
  {
    hide BoardAt, SpanAt, SlotAt;
    if n == 0 {
      SlotsOpen(c, ps, w, i);
    } else {
      SerialSlots(c, ps, n - 1, w, i);
      SlotMoves(c, ps, n - 1, w, i);
      SpanIsDue(c, ps, n - 1);
      NothingStartsEarly(c, ps, n - 1);
    }
  }

  /** In a SERIAL program slots and capacities have no influence on the schedule. */
  lemma SerialIgnoresSlots(c: ProgramCase, ps: seq<Placement>, k: nat)
    requires Runnable(c, ps) && c.topology.Serial? && k < |ps|
    ensures SpanAt(c, ps, k).start ==
            Max(Available(c, ps, k), if k == 0 then c.start else SpanAt(c, ps, k - 1).completion)
    ensures SpanAt(c, ps, k).completion == SpanAt(c, ps, k).start + ps[k].service
  {
    hide BoardAt, SpanAt, SlotAt;
    SerialSlots(c, ps, k, ps[k].worker.value, SlotAt(c, ps, k));
    SpanIsDue(c, ps, k);
    NothingStartsEarly(c, ps, k);
    if k > 0 {
      SpanIsDue(c, ps, k - 1);
    } else {
      SlotsOpen(c, ps, ps[k].worker.value, SlotAt(c, ps, k));
    }
  }

  /** SERIAL operations run one after the other, in the order of the program. */
  lemma {:induction false} SerialNeverOverlaps(c: ProgramCase, ps: seq<Placement>, j: nat, k: nat)
    requires Runnable(c, ps) && c.topology.Serial? && j < k < |ps|
    ensures SpanAt(c, ps, j).completion <= SpanAt(c, ps, k).start
  {
    hide BoardAt, SpanAt, SlotAt;
    SerialIgnoresSlots(c, ps, k);
    if j < k - 1 {
      SerialNeverOverlaps(c, ps, j, k - 1);
      SerialIgnoresSlots(c, ps, k - 1);
    }
  }

  /** Each operation finishes no earlier than any earlier one becomes available plus all the work since. */
  lemma {:induction false} SerialWaitsForTheWork(c: ProgramCase, ps: seq<Placement>, j: nat, k: nat)
    requires Runnable(c, ps) && c.topology.Serial? && j <= k < |ps|
    ensures SpanAt(c, ps, k).completion >= Available(c, ps, j) + ServiceBetween(ps, j, k + 1)
    decreases k
  {
    hide BoardAt, SpanAt, SlotAt;
    SerialIgnoresSlots(c, ps, k);
    if j < k {
      SerialWaitsForTheWork(c, ps, j, k - 1);
    } else {
      assert ServiceBetween(ps, k, k + 1) == ServiceBetween(ps, k, k) + ps[k].service;
    }
  }

  /** ... and for one of them exactly then: the completion is the length of a critical chain. */
  lemma {:induction false} SerialCriticalChain(c: ProgramCase, ps: seq<Placement>, k: nat) returns (j: nat)
    requires Runnable(c, ps) && c.topology.Serial? && k < |ps|
    ensures j <= k && SpanAt(c, ps, k).completion == Available(c, ps, j) + ServiceBetween(ps, j, k + 1)
  {
    hide BoardAt, SpanAt, SlotAt;
    SerialIgnoresSlots(c, ps, k);
    j := k;
    assert ServiceBetween(ps, k, k + 1) == ServiceBetween(ps, k, k) + ps[k].service;
    if k > 0 && Available(c, ps, k) < SpanAt(c, ps, k - 1).completion {
      j := SerialCriticalChain(c, ps, k - 1);
    }
  }

  /** A SERIAL program takes at least its total service. */
  lemma SerialTakesTheTotal(c: ProgramCase, ps: seq<Placement>)
    requires Runnable(c, ps) && c.topology.Serial?
    ensures SpanAt(c, ps, |ps| - 1).completion - c.start >= ServiceBetween(ps, 0, |ps|)
  {
    hide BoardAt, SpanAt, SlotAt;
    SerialWaitsForTheWork(c, ps, 0, |ps| - 1);
  }

  function Times(m: nat, x: real): real {
    m as real * x
  }

  lemma TimesOnce(x: real)
    ensures Times(1, x) == x
  {
  }

  lemma TimesNone(x: real)
    ensures Times(0, x) == 0.0
  {
  }

  lemma TimesAdds(m: nat, n: nat, x: real)
    ensures Times(m + n, x) == Times(m, x) + Times(n, x)
  {
  }

  // ---------- FANOUT programs in which everything is available at once ----------

  ghost predicate AllAtOnce(c: ProgramCase) {
    && c.topology.Fanout? && (forall k :: 0 <= k < |c.releases| ==> c.releases[k] == c.start)
    && forall w :: w in c.ready ==> c.ready[w] == c.start
  }

  /** The service of the first `n` operations that worker `w` was given. */
  function Load(ps: seq<Placement>, n: nat, w: Id): real
    requires n <= |ps|
  {
    if n == 0 then 0.0 else Load(ps, n - 1, w) + if ps[n - 1].worker == Some(w) then ps[n - 1].service else 0.0
  }

  lemma {:induction false} LoadGrows(ps: seq<Placement>, j: nat, n: nat, w: Id)
    requires j <= n <= |ps| && forall k :: 0 <= k < |ps| ==> ps[k].service >= 0.0
    ensures Load(ps, j, w) <= Load(ps, n, w)
    decreases n
  {
    if j < n {
      LoadGrows(ps, j, n - 1, w);
    }
  }

  /** How far the slots have advanced past `origin`, together. */
  function Advance(q: seq<real>, origin: real): real {
    if q == [] then 0.0 else Advance(q[..|q| - 1], origin) + (q[|q| - 1] - origin)
  }

  lemma {:induction false} AdvanceUpdates(q: seq<real>, i: nat, t: real, origin: real)
    requires i < |q|
    ensures Advance(q[i := t], origin) == Advance(q, origin) + (t - q[i])
  {
    var rest := q[..|q| - 1];
    if i == |q| - 1 {
      assert q[i := t][..|q| - 1] == rest;
    } else {
      AdvanceUpdates(rest, i, t, origin);
      assert q[i := t][..|q| - 1] == rest[i := t];
    }
  }

  lemma {:induction false} AdvanceAtLeast(q: seq<real>, low: real, origin: real)
    requires forall i :: 0 <= i < |q| ==> q[i] >= low
    ensures Advance(q, origin) >= Times(|q|, low - origin)
  {
    if q != [] {
      AdvanceAtLeast(q[..|q| - 1], low, origin);
      assert |q| as real * (low - origin) == (|q| - 1) as real * (low - origin) + (low - origin);
    }
  }

  lemma {:induction false} AdvanceOfFresh(n: nat, origin: real)
    ensures Advance(seq(n, _ => origin), origin) == 0.0
  {
    if n > 0 {
      AdvanceOfFresh(n - 1, origin);
      assert seq(n, _ => origin)[..n - 1] == seq(n - 1, _ => origin);
    }
  }

  lemma WorkerMoves(c: ProgramCase, ps: seq<Placement>, k: nat, w: Id)
    requires Runnable(c, ps) && k < |ps| && w in c.capacity
    ensures BoardAt(c, ps, k + 1).slots[w] ==
            if ps[k].worker == Some(w) then BoardAt(c, ps, k).slots[w][SlotAt(c, ps, k) := SpanAt(c, ps, k).completion]
            else BoardAt(c, ps, k).slots[w]
  {
    hide BoardAt, SpanOn;
    Turn(c, ps, k);
  }

  /** With everything available at once an operation starts the moment its slot frees. */
  lemma StartsOnItsSlot(c: ProgramCase, ps: seq<Placement>, k: nat)
    requires Runnable(c, ps) && AllAtOnce(c) && k < |ps|
    ensures SpanAt(c, ps, k).start == BoardAt(c, ps, k).slots[ps[k].worker.value][SlotAt(c, ps, k)]
    ensures SpanAt(c, ps, k).completion == SpanAt(c, ps, k).start + ps[k].service
  {
    hide BoardAt, SpanAt, SlotAt;
    var w, i := ps[k].worker.value, SlotAt(c, ps, k);
    SlotsGrow(c, ps, 0, k, w, i);
    SlotsOpen(c, ps, w, i);
    SpanIsDue(c, ps, k);
  }

  lemma SlotIsEarliest(c: ProgramCase, ps: seq<Placement>, k: nat)
    requires Runnable(c, ps) && k < |ps|
    ensures var q := BoardAt(c, ps, k).slots[ps[k].worker.value];
            forall i :: 0 <= i < |q| ==> q[i] >= q[SlotAt(c, ps, k)]
  {
    hide BoardAt;
  }

  /** No slot ever idles: together they have advanced by exactly the work given to the worker. */
  lemma {:induction false} NoSlotIdles(c: ProgramCase, ps: seq<Placement>, n: nat, w: Id)
    requires Runnable(c, ps) && AllAtOnce(c) && n <= |ps| && w in c.capacity
    ensures Advance(BoardAt(c, ps, n).slots[w], c.start) == Load(ps, n, w)
  {
    hide BoardAt, SpanAt, SlotAt;
    if n == 0 {
      SlotsOpen(c, ps, w, 0);
      AdvanceOfFresh(c.capacity[w], c.start);
      assert BoardAt(c, ps, 0).slots[w] == seq(c.capacity[w], _ => c.start);
    } else {
      NoSlotIdles(c, ps, n - 1, w);
      WorkerMoves(c, ps, n - 1, w);
      if ps[n - 1].worker == Some(w) {
        StartsOnItsSlot(c, ps, n - 1);
        AdvanceUpdates(BoardAt(c, ps, n - 1).slots[w], SlotAt(c, ps, n - 1), SpanAt(c, ps, n - 1).completion, c.start);
      }
    }
  }

  /** When an operation starts, the work already given to its worker fills every slot up to then. */
  lemma StartsWhenFull(c: ProgramCase, ps: seq<Placement>, k: nat)
    requires Runnable(c, ps) && AllAtOnce(c) && k < |ps|
    ensures var w := ps[k].worker.value;
            Times(c.capacity[w], SpanAt(c, ps, k).start - c.start) <= Load(ps, k, w)
  {
    hide BoardAt, SpanAt, SlotAt, Times, Load;
    var w := ps[k].worker.value;
    StartsOnItsSlot(c, ps, k);
    SlotIsEarliest(c, ps, k);
    AdvanceAtLeast(BoardAt(c, ps, k).slots[w], SpanAt(c, ps, k).start, c.start);
    NoSlotIdles(c, ps, k, w);
  }

  lemma LoadStep(ps: seq<Placement>, k: nat, w: Id)
    requires k < |ps| && ps[k].worker == Some(w)
    ensures Load(ps, k + 1, w) == Load(ps, k, w) + ps[k].service
  {
  }

  lemma Scaled(m: nat, wait: real, service: real, before: real, total: real, longest: real)
    requires m > 0 && Times(m, wait) <= before && before + service <= total && 0.0 <= service <= longest
    ensures Times(m, wait + service) <= total + Times(m - 1, longest)
  {
    assert m as real * (wait + service) == m as real * wait + m as real * service;
    assert m as real * service == service + (m - 1) as real * service;
    assert (m - 1) as real * service <= (m - 1) as real * longest;
  }

  /** Graham's bound: a worker with m slots finishes within total/m + (1 - 1/m) * longest. */
  lemma GrahamBound(c: ProgramCase, ps: seq<Placement>, w: Id, k: nat, longest: real)
    requires Runnable(c, ps) && AllAtOnce(c) && k < |ps| && ps[k].worker == Some(w)
    requires forall j :: 0 <= j < |ps| && ps[j].worker == Some(w) ==> ps[j].service <= longest
    ensures Times(c.capacity[w], SpanAt(c, ps, k).completion - c.start)
            <= Load(ps, |ps|, w) + Times(c.capacity[w] - 1, longest)
  {
    hide BoardAt, SpanAt, SlotAt, Times, Load, AllAtOnce;
    StartsWhenFull(c, ps, k);
    assert SpanAt(c, ps, k).completion == SpanAt(c, ps, k).start + ps[k].service by {
      SpanIsDue(c, ps, k);
    }
    LoadGrows(ps, k + 1, |ps|, w);
    LoadStep(ps, k, w);
    Scaled(c.capacity[w], SpanAt(c, ps, k).start - c.start, ps[k].service, Load(ps, k, w), Load(ps, |ps|, w), longest);
  }

  // ---------- against any other schedule of the same placement ----------

  /** Another assignment of worker `w`'s operations to its slots, in any order and with any waiting. */
  ghost predicate Rival(c: ProgramCase, ps: seq<Placement>, w: Id, lane: seq<nat>, begin: seq<real>, deadline: real)
    requires w in c.capacity
  {
    && |lane| == |begin| == |ps|
    && (forall k :: 0 <= k < |ps| && ps[k].worker == Some(w) ==>
          lane[k] < c.capacity[w] && c.start <= begin[k] && begin[k] + ps[k].service <= deadline)
    && forall j, k :: 0 <= j < k < |ps| && ps[j].worker == ps[k].worker == Some(w) && lane[j] == lane[k] ==>
          begin[j] + ps[j].service <= begin[k] || begin[k] + ps[k].service <= begin[j]
  }

  ghost predicate Apart(q: seq<Span>) {
    forall i, j :: 0 <= i < j < |q| ==> q[i].completion <= q[j].start || q[j].completion <= q[i].start
  }

  ghost predicate Within(q: seq<Span>, from: real, to: real) {
    forall i :: 0 <= i < |q| ==> from <= q[i].start <= q[i].completion <= to
  }

  function Total(q: seq<Span>): real {
    if q == [] then 0.0 else Total(q[..|q| - 1]) + (q[|q| - 1].completion - q[|q| - 1].start)
  }

  function Drop(q: seq<Span>, i: nat): seq<Span>
    requires i < |q|
  {
    q[..i] + q[i + 1..]
  }

  lemma {:induction false} TotalDrops(q: seq<Span>, i: nat)
    requires i < |q|
    ensures Total(q) == Total(Drop(q, i)) + (q[i].completion - q[i].start)
  {
    var rest := q[..|q| - 1];
    if i == |q| - 1 {
      assert Drop(q, i) == rest;
    } else {
      TotalDrops(rest, i);
      assert Drop(q, i)[..|q| - 2] == Drop(rest, i);
    }
  }

  lemma DropKeeps(q: seq<Span>, i: nat, from: real, to: real)
    requires i < |q| && Apart(q) && Within(q, from, to)
    ensures Apart(Drop(q, i)) && Within(Drop(q, i), from, to)
  {
    var r := Drop(q, i);
    forall a, b | 0 <= a < b < |r| ensures r[a].completion <= r[b].start || r[b].completion <= r[a].start {
      var a', b' := if a < i then a else a + 1, if b < i then b else b + 1;
      assert r[a] == q[a'] && r[b] == q[b'];
    }
  }

  lemma LatestStart(q: seq<Span>) returns (i: nat)
    requires q != []
    ensures i < |q| && forall j :: 0 <= j < |q| ==> q[j].start <= q[i].start
  {
    i := 0;
    for k := 1 to |q|
      invariant i < |q| && forall j :: 0 <= j < k ==> q[j].start <= q[i].start
    {
      if q[i].start < q[k].start {
        i := k;
      }
    }
  }

  /** Intervals that keep apart are no longer, together, than the interval that holds them. */
  lemma {:induction false} ApartFits(q: seq<Span>, from: real, to: real)
    requires Apart(q) && Within(q, from, to) && from <= to
    ensures Total(q) <= to - from
    decreases |q|
  {
    if i :| 0 <= i < |q| && q[i].start == q[i].completion {
      TotalDrops(q, i);
      DropKeeps(q, i, from, to);
      ApartFits(Drop(q, i), from, to);
    } else if q != [] {
      var i := LatestStart(q);
      TotalDrops(q, i);
      DropKeeps(q, i, from, to);
      var r := Drop(q, i);
      forall a | 0 <= a < |r| ensures r[a].completion <= q[i].start {
        var a' := if a < i then a else a + 1;
        assert r[a] == q[a'];
      }
      ApartFits(r, from, q[i].start);
    }
  }

  /** What the rival puts in slot `l` of worker `w`. */
  function Lane(ps: seq<Placement>, w: Id, lane: seq<nat>, begin: seq<real>, l: nat, n: nat): seq<Span>
    requires n <= |ps| == |lane| == |begin|
  {
    if n == 0 then []
    else if ps[n - 1].worker == Some(w) && lane[n - 1] == l then
      Lane(ps, w, lane, begin, l, n - 1) + [Span(begin[n - 1], begin[n - 1] + ps[n - 1].service)]
    else Lane(ps, w, lane, begin, l, n - 1)
  }

  lemma {:induction false} LaneKeepsApart(c: ProgramCase, ps: seq<Placement>, w: Id, lane: seq<nat>, begin: seq<real>,
                                          deadline: real, l: nat, n: nat)
    requires Runnable(c, ps) && w in c.capacity && Rival(c, ps, w, lane, begin, deadline) && n <= |ps|
    ensures var q := Lane(ps, w, lane, begin, l, n); Apart(q) && Within(q, c.start, deadline)
    ensures forall s :: s in Lane(ps, w, lane, begin, l, n) ==>
              exists k :: 0 <= k < n && ps[k].worker == Some(w) && lane[k] == l && s ==
                  Span(begin[k], begin[k] + ps[k].service)
  {
    hide BoardAt, SpanAt, SlotAt;
    if n > 0 {
      LaneKeepsApart(c, ps, w, lane, begin, deadline, l, n - 1);
      var q := Lane(ps, w, lane, begin, l, n - 1);
      if ps[n - 1].worker == Some(w) && lane[n - 1] == l {
        forall i | 0 <= i < |q|
          ensures q[i].completion <= begin[n - 1] || begin[n - 1] + ps[n - 1].service <= q[i].start
        {
          assert q[i] in q;
        }
      }
    }
  }

  /** The work in the first `m` slots. */
  function InLanes(ps: seq<Placement>, w: Id, lane: seq<nat>, begin: seq<real>, m: nat, n: nat): real
    requires n <= |ps| == |lane| == |begin|
  {
    if m == 0 then 0.0 else InLanes(ps, w, lane, begin, m - 1, n) + Total(Lane(ps, w, lane, begin, m - 1, n))
  }

  lemma {:induction false} OneMoreInItsLane(ps: seq<Placement>, w: Id, lane: seq<nat>, begin: seq<real>, m: nat, n: nat)
    requires n < |ps| == |lane| == |begin|
    ensures InLanes(ps, w, lane, begin, m, n + 1) == InLanes(ps, w, lane, begin, m, n) +
            (if ps[n].worker == Some(w) && lane[n] < m then ps[n].service else 0.0)
  {
    if m > 0 {
      OneMoreInItsLane(ps, w, lane, begin, m - 1, n);
      var q := Lane(ps, w, lane, begin, m - 1, n);
      var s := Span(begin[n], begin[n] + ps[n].service);
      assert (q + [s])[..|q|] == q;
    }
  }

  lemma {:induction false} LanesHoldTheLoad(c: ProgramCase, ps: seq<Placement>, w: Id, lane: seq<nat>, begin: seq<real>,
                                            deadline: real, n: nat)
    requires Runnable(c, ps) && w in c.capacity && Rival(c, ps, w, lane, begin, deadline) && n <= |ps|
    ensures InLanes(ps, w, lane, begin, c.capacity[w], n) == Load(ps, n, w)
  {
    hide BoardAt, SpanAt, SlotAt, InLanes, Runnable;
    if n == 0 {
      NothingInLanes(ps, w, lane, begin, c.capacity[w]);
    } else {
      LanesHoldTheLoad(c, ps, w, lane, begin, deadline, n - 1);
      OneMoreInItsLane(ps, w, lane, begin, c.capacity[w], n - 1);
    }
  }

  lemma {:induction false} NothingInLanes(ps: seq<Placement>, w: Id, lane: seq<nat>, begin: seq<real>, m: nat)
    requires |ps| == |lane| == |begin|
    ensures InLanes(ps, w, lane, begin, m, 0) == 0.0
  {
    if m > 0 {
      NothingInLanes(ps, w, lane, begin, m - 1);
    }
  }

  lemma {:induction false} LanesAreShort(c: ProgramCase, ps: seq<Placement>, w: Id, lane: seq<nat>, begin: seq<real>,
                                         deadline: real, m: nat)
    requires Runnable(c, ps) && w in c.capacity && Rival(c, ps, w, lane, begin, deadline) && deadline >= c.start
    ensures InLanes(ps, w, lane, begin, m, |ps|) <= Times(m, deadline - c.start)
  {
    hide BoardAt, SpanAt, SlotAt, Times, Runnable;
    if m > 0 {
      LanesAreShort(c, ps, w, lane, begin, deadline, m - 1);
      LaneKeepsApart(c, ps, w, lane, begin, deadline, m - 1, |ps|);
      ApartFits(Lane(ps, w, lane, begin, m - 1, |ps|), c.start, deadline);
      TimesAdds(m - 1, 1, deadline - c.start);
      TimesOnce(deadline - c.start);
    } else {
      TimesNone(deadline - c.start);
    }
  }

  /**
   With everything available at once, no other schedule of the same operations on the same worker
   beats this one by more than the factor 2 - 1/m.
   */
  lemma NoRivalIsMuchFaster(c: ProgramCase, ps: seq<Placement>, w: Id, k: nat, lane: seq<nat>, begin: seq<real>,
      deadline: real)
    requires Runnable(c, ps) && AllAtOnce(c) && k < |ps| && ps[k].worker == Some(w)
    requires Rival(c, ps, w, lane, begin, deadline)
    ensures var m := c.capacity[w];
            Times(m, SpanAt(c, ps, k).completion - c.start) <= Times(2 * m - 1, deadline - c.start)
  {
    hide BoardAt, SpanAt, SlotAt, Times, Load;
    var m := c.capacity[w];
    GrahamBound(c, ps, w, k, deadline - c.start);
    LanesAreShort(c, ps, w, lane, begin, deadline, m);
    LanesHoldTheLoad(c, ps, w, lane, begin, deadline, |ps|);
    TimesAdds(m, m - 1, deadline - c.start);
  }

  /** This schedule is itself such a rival, so no worker can finish before its load is spread over its slots. */
  lemma ItsOwnRival(c: ProgramCase, ps: seq<Placement>, w: Id, deadline: real)
    requires Runnable(c, ps) && w in c.capacity
    requires forall k :: 0 <= k < |ps| && ps[k].worker == Some(w) ==> SpanAt(c, ps, k).completion <= deadline
    requires deadline >= c.start
    ensures Load(ps, |ps|, w) <= Times(c.capacity[w], deadline - c.start)
  {
    hide BoardAt, SpanAt, SlotAt, Times, Load;
    var lane := seq(|ps|, k requires 0 <= k < |ps| => SlotAt(c, ps, k));
    var begin := seq(|ps|, k requires 0 <= k < |ps| => SpanAt(c, ps, k).start);
    forall k | 0 <= k < |ps| && ps[k].worker == Some(w)
      ensures lane[k] < c.capacity[w] && c.start <= begin[k] && begin[k] + ps[k].service <= deadline
    {
      NothingStartsEarly(c, ps, k);
      SpanIsDue(c, ps, k);
    }
    forall j, k | 0 <= j < k < |ps| && ps[j].worker == ps[k].worker == Some(w) && lane[j] == lane[k]
      ensures begin[j] + ps[j].service <= begin[k]
    {
      SameSlotWaits(c, ps, j, k);
      SpanIsDue(c, ps, j);
    }
    LanesAreShort(c, ps, w, lane, begin, deadline, c.capacity[w]);
    LanesHoldTheLoad(c, ps, w, lane, begin, deadline, |ps|);
  }
}
