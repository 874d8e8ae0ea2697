/** The generated branch program: one Session, one State per branch, and the events of its three stages. */
module BranchProgram {
  import opened Entities
  import opened RetentionModel
  import opened RetentionSafety
  import opened RetentionInclusion
  import opened RetentionBranch
  import opened RetentionBranchB4
  import opened RetentionBranchRuns
  import opened RetentionRuns

  // ---------- names ----------

  function StateName(i: nat): string {
    "branch-" + Decimal(i)
  }

  lemma {:induction false} DecimalInjective(m: nat, n: nat)
    requires Decimal(m) == Decimal(n)
    ensures m == n
  {
    DecimalEnds(m);
    DecimalEnds(n);
    if m >= 10 && n >= 10 {
      assert Decimal(m)[..|Decimal(m)| - 1] == Decimal(m / 10);
      assert Decimal(n)[..|Decimal(n)| - 1] == Decimal(n / 10);
      DecimalInjective(m / 10, n / 10);
    }
  }

  lemma DecimalEnds(n: nat)
    ensures |Decimal(n)| >= 1 && (n >= 10 ==> |Decimal(n)| >= 2)
    ensures Decimal(n)[|Decimal(n)| - 1] == '0' + (n % 10) as char
  {
    if n >= 10 {
      DecimalEnds(n / 10);
    }
  }

  lemma StateNameInjective(i: nat, j: nat)
    requires StateName(i) == StateName(j)
    ensures i == j
  {
    assert StateName(i)[7..] == Decimal(i) && StateName(j)[7..] == Decimal(j);
    DecimalInjective(i, j);
  }

  // ---------- the events ----------

  datatype Stage = Arrival | Resolution | Lookup | Cleanup | Closing

  /** One event of the program: its stage and its branch. */
  datatype Role = Role(stage: Stage, branch: nat)

  /** The labels of the branches, true for WAITING, and the order in which they are admitted. */
  datatype Plan = Plan(waiting: seq<bool>, order: seq<nat>)

  ghost predicate Planned(plan: Plan) {
    && |plan.waiting| >= 1 && |plan.order| == |plan.waiting|
    && (forall k :: 0 <= k < |plan.order| ==> plan.order[k] < |plan.waiting|)
    && (forall j, k :: 0 <= j < k < |plan.order| ==> plan.order[j] != plan.order[k])
    && (forall i :: 0 <= i < |plan.waiting| ==> i in plan.order)
  }

  ghost function Slot(plan: Plan, i: nat): (k: nat)
    requires Planned(plan) && i < |plan.waiting|
    ensures k < |plan.order| && plan.order[k] == i
  {
    assert i in plan.order;
    var k :| 0 <= k < |plan.order| && plan.order[k] == i;
    k
  }

  function AdmitTime(k: nat, width: nat): real {
    0.5 * (k + 1) as real / (width + 1) as real
  }

  predicate Takes(plan: Plan, r: Role) {
    match r.stage
    case Closing => r.branch == |plan.waiting|
    case Lookup => r.branch < |plan.waiting| && plan.waiting[r.branch]
    case Cleanup => r.branch < |plan.waiting| && plan.waiting[r.branch]
    case _ => r.branch < |plan.waiting|
  }

  function Suffix(plan: Plan, r: Role): string
    requires Takes(plan, r)
  {
    match r.stage
    case Arrival => "-admit"
    case Resolution => if plan.waiting[r.branch] then "-activate" else "-discard"
    case Lookup => "-reuse"
    case Cleanup => "-terminal"
    case Closing => "branch-session-end"
  }

  function EventName(plan: Plan, r: Role): string
    requires Takes(plan, r)
  {
    if r.stage == Closing then Suffix(plan, r) else StateName(r.branch) + Suffix(plan, r)
  }

  ghost function EventTime(plan: Plan, r: Role): real
    requires Planned(plan) && Takes(plan, r)
  {
    match r.stage
    case Arrival => AdmitTime(Slot(plan, r.branch), |plan.waiting|)
    case Resolution => 1.0
    case Lookup => 1.0
    case _ => 1.1
  }

  function EventKindOf(plan: Plan, r: Role): EventKind
    requires Takes(plan, r)
  {
    match r.stage
    case Arrival => Admit(StateName(r.branch))
    case Resolution => Dependents(StateName(r.branch), [if plan.waiting[r.branch] then LifeActive else LifeTerminal])
    case Lookup => Reuse(StateName(r.branch), true)
    case Cleanup => Dependents(StateName(r.branch), [LifeTerminal])
    case Closing => SessionStatus("branch-session", false)
  }

  ghost function EventOf(plan: Plan, r: Role): Event
    requires Planned(plan) && Takes(plan, r)
  {
    Event(EventName(plan, r), EventTime(plan, r),
          match r.stage case Arrival => 0 case Closing => |plan.waiting| + 1 case _ => r.branch, EventKindOf(plan, r))
  }

  /** The last two characters tell the stages, and the two resolutions, apart. */
  lemma SuffixesDiffer(plan: Plan, q: Role, r: Role)
    requires Takes(plan, q) && Takes(plan, r) && q.stage != r.stage
    ensures var s, t := Suffix(plan, q), Suffix(plan, r); s[|s| - 2..] != t[|t| - 2..]
  {
    var s, t := Suffix(plan, q), Suffix(plan, r);
    assert s[|s| - 2..] == [s[|s| - 2], s[|s| - 1]];
    assert t[|t| - 2..] == [t[|t| - 2], t[|t| - 1]];
  }

  lemma EventNameEnds(plan: Plan, r: Role)
    requires Takes(plan, r)
    ensures var n, s := EventName(plan, r), Suffix(plan, r); |n| >= 2 && |s| >= 2 && n[|n| - 2..] == s[|s| - 2..]
  {
    var n, s := EventName(plan, r), Suffix(plan, r);
    assert n[|n| - 2..] == s[|s| - 2..];
  }

  lemma EventNamesDiffer(plan: Plan, q: Role, r: Role)
    requires Takes(plan, q) && Takes(plan, r) && EventName(plan, q) == EventName(plan, r)
    ensures q == r
  {
    EventNameEnds(plan, q);
    EventNameEnds(plan, r);
    if q.stage != r.stage {
      SuffixesDiffer(plan, q, r);
    } else if q.stage != Closing {
      SameStage(plan, q, r);
    }
  }

  lemma SameStage(plan: Plan, q: Role, r: Role)
    requires Takes(plan, q) && Takes(plan, r) && EventName(plan, q) == EventName(plan, r) && q.stage == r.stage
    requires q.stage != Closing
    ensures q.branch == r.branch
  {
    var n, s, t := EventName(plan, q), Suffix(plan, q), Suffix(plan, r);
    assert n[|n| - 1] == s[|s| - 1] && n[|n| - 1] == t[|t| - 1];
    assert s == t;
    assert n[..|n| - |s|] == StateName(q.branch);
    assert n[..|n| - |t|] == StateName(r.branch);
    StateNameInjective(q.branch, r.branch);
  }

  // ---------- the list of events ----------

  /** The events are those of the roles, each role once. */
  ghost predicate Listing(plan: Plan, events: seq<Event>, roles: seq<Role>)
    requires Planned(plan)
  {
    && |events| == |roles|
    && (forall i :: 0 <= i < |roles| ==> Takes(plan, roles[i]) && events[i] == EventOf(plan, roles[i]))
    && (forall i, j :: 0 <= i < j < |roles| ==> roles[i] != roles[j])
  }

  lemma ListOneMore(plan: Plan, events: seq<Event>, roles: seq<Role>, e: Event, r: Role)
    requires Planned(plan) && Listing(plan, events, roles) && Takes(plan, r) && r !in roles && e == EventOf(plan, r)
    ensures Listing(plan, events + [e], roles + [r])
  {
  }

  function SpecOf(plan: Plan, i: nat): StateSpec
    requires i < |plan.waiting|
  {
    StateSpec("branch-session", [if plan.waiting[i] then LifeWaiting else LifeSpeculative])
  }

  /** One State per branch, labelled as planned. */
  ghost predicate States(plan: Plan, states: map<Id, StateSpec>) {
    && (forall i :: 0 <= i < |plan.waiting| ==> StateName(i) in states && states[StateName(i)] == SpecOf(plan, i))
    && (forall s :: s in states ==> exists i :: 0 <= i < |plan.waiting| && s == StateName(i))
  }

  method BuildStates(plan: Plan) returns (states: map<Id, StateSpec>)
    ensures States(plan, states)
  {
    states := map[];
    for n := 0 to |plan.waiting|
      invariant forall i :: 0 <= i < n ==> StateName(i) in states && states[StateName(i)] == SpecOf(plan, i)
      invariant forall s :: s in states ==> exists i :: 0 <= i < n && s == StateName(i)
    {
      forall i | 0 <= i < n ensures StateName(i) != StateName(n) {
        if StateName(i) == StateName(n) {
          StateNameInjective(i, n);
        }
      }
      states := states[StateName(n) := SpecOf(plan, n)];
    }
  }

  /** The admissions, one per slot, in the admission order. */
  method AdmitEvents(plan: Plan) returns (events: seq<Event>, ghost roles: seq<Role>)
    requires Planned(plan)
    ensures Listing(plan, events, roles)
    ensures (forall r :: r in roles ==> r.stage == Arrival) && forall i :: 0 <= i < |plan.waiting| ==>
            Role(Arrival, i) in roles
  {
    events, roles := [], [];
    for k := 0 to |plan.order|
      invariant Listing(plan, events, roles) && |roles| == k
      invariant forall j :: 0 <= j < k ==> roles[j] == Role(Arrival, plan.order[j])
    {
      var i := plan.order[k];
      var e := Event(StateName(i) + "-admit", AdmitTime(k, |plan.waiting|), 0, Admit(StateName(i)));
      assert e == EventOf(plan, Role(Arrival, i));
      ListOneMore(plan, events, roles, e, Role(Arrival, i));
      events, roles := events + [e], roles + [Role(Arrival, i)];
    }
    forall i | 0 <= i < |plan.waiting| ensures Role(Arrival, i) in roles {
      assert roles[Slot(plan, i)] in roles;
    }
  }

  /** At the resolution each branch is discarded, or activated and reused. */
  method ResolveEvents(plan: Plan, admits: seq<Event>, ghost admitRoles: seq<Role>)
    returns (events: seq<Event>, ghost roles: seq<Role>)
    requires Planned(plan) && Listing(plan, admits, admitRoles) && forall r :: r in admitRoles ==> r.stage == Arrival
    ensures Listing(plan, events, roles) && admitRoles <= roles
    ensures forall r :: r in roles ==> r.stage in {Arrival, Resolution, Lookup}
    ensures forall r :: Takes(plan, r) && r.stage in {Resolution, Lookup} ==> r in roles
  {
    events, roles := admits, admitRoles;
    for i := 0 to |plan.waiting|
      invariant Listing(plan, events, roles) && admitRoles <= roles
      invariant forall r :: r in roles ==> r.stage == Arrival || (r.stage in {Resolution, Lookup} && r.branch < i)
      invariant forall r :: Takes(plan, r) && r.stage in {Resolution, Lookup} && r.branch < i ==> r in roles
    {
      var resolve := Role(Resolution, i);
      if !plan.waiting[i] {
        var e := Event(StateName(i) + "-discard", 1.0, i, Dependents(StateName(i), [LifeTerminal]));
        assert e == EventOf(plan, resolve);
        ListOneMore(plan, events, roles, e, resolve);
        events, roles := events + [e], roles + [resolve];
      } else {
        var e := Event(StateName(i) + "-activate", 1.0, i, Dependents(StateName(i), [LifeActive]));
        assert e == EventOf(plan, resolve);
        ListOneMore(plan, events, roles, e, resolve);
        events, roles := events + [e], roles + [resolve];
        var reuse := Role(Lookup, i);
        var u := Event(StateName(i) + "-reuse", 1.0, i, Reuse(StateName(i), true));
        assert u == EventOf(plan, reuse);
        ListOneMore(plan, events, roles, u, reuse);
        events, roles := events + [u], roles + [reuse];
      }
    }
  }

  /** After it the surviving branches end, and last the Session. */
  method CleanupEvents(plan: Plan, before: seq<Event>, ghost beforeRoles: seq<Role>)
    returns (events: seq<Event>, ghost roles: seq<Role>)
    requires Planned(plan) && Listing(plan, before, beforeRoles)
    requires forall r :: r in beforeRoles ==> r.stage in {Arrival, Resolution, Lookup}
    ensures Listing(plan, events, roles) && beforeRoles <= roles
    ensures forall r :: Takes(plan, r) && r.stage in {Cleanup, Closing} ==> r in roles
  {
    events, roles := before, beforeRoles;
    for i := 0 to |plan.waiting|
      invariant Listing(plan, events, roles) && beforeRoles <= roles
      invariant forall r :: r in roles ==>
                r.stage in {Arrival, Resolution, Lookup} || (r.stage == Cleanup && r.branch < i)
      invariant forall r :: Takes(plan, r) && r.stage == Cleanup && r.branch < i ==> r in roles
    {
      if plan.waiting[i] {
        var clean := Role(Cleanup, i);
        var e := Event(StateName(i) + "-terminal", 1.1, i, Dependents(StateName(i), [LifeTerminal]));
        assert e == EventOf(plan, clean);
        ListOneMore(plan, events, roles, e, clean);
        events, roles := events + [e], roles + [clean];
      }
    }
    var end := Role(Closing, |plan.waiting|);
    var e := Event("branch-session-end", 1.1, |plan.waiting| + 1, SessionStatus("branch-session", false));
    assert e == EventOf(plan, end);
    ListOneMore(plan, events, roles, e, end);
    events, roles := events + [e], roles + [end];
  }

  // ---------- the program is a branch case ----------

  ghost predicate Complete(plan: Plan, p: Case, roles: seq<Role>)
    requires Planned(plan)
  {
    && p.sessions == map["branch-session" := true] && p.start == 0.0 && p.end == 1.2
    && States(plan, p.states) && Listing(plan, p.events, roles) && forall r :: Takes(plan, r) ==> r in roles
  }

  lemma AdmitTimesRise(j: nat, k: nat, width: nat)
    requires j < k
    ensures AdmitTime(j, width) < AdmitTime(k, width)
  {
    var w := (width + 1) as real;
    assert AdmitTime(k, width) - AdmitTime(j, width) == 0.5 * (k - j) as real / w;
  }

  lemma AdmitTimesEarly(k: nat, width: nat)
    requires k < width
    ensures 0.0 < AdmitTime(k, width) < 1.0
  {
    var w := (width + 1) as real;
    assert AdmitTime(k, width) * w == 0.5 * (k + 1) as real;
  }

  /** Each event comes from one role. */
  lemma RoleOf(plan: Plan, p: Case, roles: seq<Role>, e: Event) returns (r: Role)
    requires Planned(plan) && Complete(plan, p, roles) && e in p.events
    ensures r in roles && Takes(plan, r) && e == EventOf(plan, r)
  {
    var i :| 0 <= i < |p.events| && p.events[i] == e;
    r := roles[i];
  }

  lemma EventListed(plan: Plan, p: Case, roles: seq<Role>, r: Role)
    requires Planned(plan) && Complete(plan, p, roles) && Takes(plan, r)
    ensures EventOf(plan, r) in p.events
  {
    var i :| 0 <= i < |roles| && roles[i] == r;
    assert p.events[i] == EventOf(plan, r);
  }

  lemma TimesFit(plan: Plan, r: Role)
    requires Planned(plan) && Takes(plan, r)
    ensures 0.0 <= EventTime(plan, r) <= 1.2
    ensures r.stage == Arrival ==> EventTime(plan, r) < 1.0
    ensures r.stage in {Resolution, Lookup} ==> EventTime(plan, r) == 1.0
    ensures r.stage in {Cleanup, Closing} ==> EventTime(plan, r) > 1.0
  {
    if r.stage == Arrival {
      AdmitTimesEarly(Slot(plan, r.branch), |plan.waiting|);
    }
  }

  /** Two admissions at one time, or two roles of one key, are the same. */
  lemma SameAdmission(plan: Plan, q: Role, r: Role)
    requires Planned(plan) && Takes(plan, q) && Takes(plan, r) && q.stage == r.stage == Arrival
    requires EventTime(plan, q) == EventTime(plan, r)
    ensures q == r
  {
    var j, k := Slot(plan, q.branch), Slot(plan, r.branch);
    if j < k {
      AdmitTimesRise(j, k, |plan.waiting|);
    } else if k < j {
      AdmitTimesRise(k, j, |plan.waiting|);
    }
  }

  lemma KeysDiffer(plan: Plan, q: Role, r: Role)
    requires Planned(plan) && Takes(plan, q) && Takes(plan, r) && q != r
    ensures Precedes(EventOf(plan, q), EventOf(plan, r)) || Precedes(EventOf(plan, r), EventOf(plan, q))
  {
    TimesFit(plan, q);
    TimesFit(plan, r);
    if EventTime(plan, q) == EventTime(plan, r) && q.stage == r.stage == Arrival {
      SameAdmission(plan, q, r);
    }
  }

  lemma ListedIdsAndKeys(plan: Plan, p: Case, roles: seq<Role>, i: nat, j: nat)
    requires Planned(plan) && Complete(plan, p, roles) && i < j < |p.events|
    ensures p.events[i].id != p.events[j].id
    ensures Precedes(p.events[i], p.events[j]) || Precedes(p.events[j], p.events[i])
  {
    if p.events[i].id == p.events[j].id {
      EventNamesDiffer(plan, roles[i], roles[j]);
    }
    KeysDiffer(plan, roles[i], roles[j]);
  }

  lemma NameKnown(plan: Plan, p: Case, r: Role)
    requires Planned(plan) && States(plan, p.states) && p.sessions == map["branch-session" := true] && Takes(plan, r)
    ensures KnownNames(p, EventOf(plan, r).kind)
  {
  }

  lemma BranchOf(plan: Plan, p: Case, s: Id) returns (i: nat)
    requires States(plan, p.states) && s in p.states
    ensures i < |plan.waiting| && s == StateName(i) && p.states[s] == SpecOf(plan, i)
  {
    i :| 0 <= i < |plan.waiting| && s == StateName(i);
  }

  lemma WaitingByName(plan: Plan, p: Case, i: nat)
    requires States(plan, p.states) && i < |plan.waiting|
    ensures StateName(i) in WaitingStates(p) <==> plan.waiting[i]
    ensures DeriveLifecycle(p.states[StateName(i)].dependents) in {Waiting, Speculative}
  {
    var d := SpecOf(plan, i).dependents;
    assert d[0] in d;
    assert forall l :: l in d <==> l == d[0];
  }

  lemma IsBranchEvent(plan: Plan, p: Case, r: Role)
    requires Planned(plan) && States(plan, p.states) && Takes(plan, r)
    ensures BranchEvent(p, 1.0, EventOf(plan, r))
  {
    TimesFit(plan, r);
    if r.stage == Resolution || r.stage == Lookup {
      WaitingByName(plan, p, r.branch);
      var l := [if plan.waiting[r.branch] then LifeActive else LifeTerminal];
      assert l[0] in l && forall x :: x in l <==> x == l[0];
    }
  }

  lemma OneEventPerKind(plan: Plan, q: Role, r: Role)
    requires Planned(plan) && Takes(plan, q) && Takes(plan, r)
    requires EventKindOf(plan, q) == EventKindOf(plan, r)
    requires EventKindOf(plan, q).Admit? || EventKindOf(plan, q).Reuse?
    ensures q == r
  {
    StateNameInjective(q.branch, r.branch);
  }

  lemma ProgramWellFormed(plan: Plan, p: Case, roles: seq<Role>)
    requires Planned(plan) && Complete(plan, p, roles)
    ensures WellFormedCase(p)
  {
    hide Listing, Planned;
    assert "branch-session" in p.sessions.Keys;
    assert StateName(0) in p.states.Keys by { FirstState(plan, p); }
    forall s | s in p.states
      ensures p.states[s].session in p.sessions && Supported(p.states[s].dependents) && exists e ::
              e in p.events && e.kind == Admit(s)
    {
      var i := BranchOf(plan, p, s);
      EventListed(plan, p, roles, Role(Arrival, i));
      assert EventOf(plan, Role(Arrival, i)).kind == Admit(s);
    }
    forall e | e in p.events
      ensures p.start <= e.time <= p.end && KnownNames(p, e.kind)
      ensures (e.kind.Reuse? || e.kind.Invalidate?) ==> AdmittedBefore(p, e)
    {
      var r := RoleOf(plan, p, roles, e);
      TimesFit(plan, r);
      NameKnown(plan, p, r);
      if e.kind.Reuse? {
        ReuseAfterAdmission(plan, p, roles, e, r);
      }
    }
    forall i, j | 0 <= i < j < |p.events|
      ensures p.events[i].id != p.events[j].id
      ensures Precedes(p.events[i], p.events[j]) || Precedes(p.events[j], p.events[i])
    {
      ListedIdsAndKeys(plan, p, roles, i, j);
    }
  }

  lemma FirstState(plan: Plan, p: Case)
    requires Planned(plan) && States(plan, p.states)
    ensures StateName(0) in p.states
  {
  }

  lemma ReuseAfterAdmission(plan: Plan, p: Case, roles: seq<Role>, e: Event, r: Role)
    requires Planned(plan) && Complete(plan, p, roles) && e.kind.Reuse? && Takes(plan, r) && e == EventOf(plan, r)
    ensures AdmittedBefore(p, e)
  {
    TimesFit(plan, r);
    forall a | a in p.events && a.kind == Admit(e.kind.state) ensures !Precedes(e, a) {
      var q := RoleOf(plan, p, roles, a);
      TimesFit(plan, q);
    }
  }

  lemma ProgramSingles(plan: Plan, p: Case, roles: seq<Role>)
    requires Planned(plan) && Complete(plan, p, roles)
    ensures SingleAdmits(p) && OneAdmitPerState(p)
    ensures forall a, b :: a in p.events && b in p.events && a.kind.Reuse? && b.kind == a.kind ==> a == b
  {
    hide Listing, Planned, Complete;
    forall a, b | a in p.events && b in p.events && (a.kind.Admit? || a.kind.Reuse?) && b.kind == a.kind
      ensures a == b
    {
      var q := RoleOf(plan, p, roles, a);
      var r := RoleOf(plan, p, roles, b);
      OneEventPerKind(plan, q, r);
    }
    forall a, b | a in p.events && b in p.events && a.kind.Admit? && b.kind.Admit? && a.time == b.time ensures a == b {
      var q := RoleOf(plan, p, roles, a);
      var r := RoleOf(plan, p, roles, b);
      SameAdmission(plan, q, r);
    }
  }

  lemma ProgramResolves(plan: Plan, p: Case, roles: seq<Role>)
    requires Planned(plan) && Complete(plan, p, roles)
    ensures forall s :: s in p.states ==>
            ResolvedAt(p, 1.0, s) && DeriveLifecycle(p.states[s].dependents) in {Waiting, Speculative}
    ensures forall s :: s in WaitingStates(p) ==> ReusedAt(p, 1.0, s)
    ensures forall e :: e in p.events ==> BranchEvent(p, 1.0, e)
  {
    hide Listing, Planned;
    forall s | s in p.states
      ensures ResolvedAt(p, 1.0, s) && DeriveLifecycle(p.states[s].dependents) in {Waiting, Speculative}
      ensures s in WaitingStates(p) ==> ReusedAt(p, 1.0, s)
    {
      var i := BranchOf(plan, p, s);
      WaitingByName(plan, p, i);
      EventListed(plan, p, roles, Role(Resolution, i));
      assert EventOf(plan, Role(Resolution, i)).time == 1.0;
      if plan.waiting[i] {
        EventListed(plan, p, roles, Role(Lookup, i));
        assert EventOf(plan, Role(Lookup, i)).kind == Reuse(s, true);
      }
    }
    forall e | e in p.events ensures BranchEvent(p, 1.0, e) {
      var r := RoleOf(plan, p, roles, e);
      IsBranchEvent(plan, p, r);
    }
  }

  // ---------- what is generated ----------

  /** The k-th admission is of the k-th branch in the admission order, in the first half of the first second. */
  function Admission(plan: Plan, k: nat): Event
    requires k < |plan.order|
  {
    var name := "branch-" + Decimal(plan.order[k]);
    Event(name + "-admit", 0.5 * (k + 1) as real / (|plan.waiting| + 1) as real, 0, Admit(name))
  }

  /** What branch `i` does after its admission: a WAITING one is activated, reused and ended, another discarded. */
  predicate Follows(plan: Plan, i: nat, e: Event)
    requires i < |plan.waiting|
  {
    var name := "branch-" + Decimal(i);
    if plan.waiting[i] then
      || e == Event(name + "-activate", 1.0, i, Dependents(name, [LifeActive]))
      || e == Event(name + "-reuse", 1.0, i, Reuse(name, true))
      || e == Event(name + "-terminal", 1.1, i, Dependents(name, [LifeTerminal]))
    else e == Event(name + "-discard", 1.0, i, Dependents(name, [LifeTerminal]))
  }

  /** The events of the program, spelled out. */
  ghost predicate Scheduled(plan: Plan, e: Event) {
    || (exists k :: 0 <= k < |plan.order| && e == Admission(plan, k))
    || (exists i :: 0 <= i < |plan.waiting| && Follows(plan, i, e))
    || e == Event("branch-session-end", 1.1, |plan.waiting| + 1, SessionStatus("branch-session", false))
  }

  lemma RoleIsScheduled(plan: Plan, r: Role)
    requires Planned(plan) && Takes(plan, r)
    ensures Scheduled(plan, EventOf(plan, r))
  {
    match r.stage
    case Arrival => assert EventOf(plan, r) == Admission(plan, Slot(plan, r.branch));
    case Resolution => assert Follows(plan, r.branch, EventOf(plan, r));
    case Lookup => assert Follows(plan, r.branch, EventOf(plan, r));
    case Cleanup => assert Follows(plan, r.branch, EventOf(plan, r));
    case Closing =>
  }

  lemma ScheduledHasRole(plan: Plan, e: Event) returns (r: Role)
    requires Planned(plan) && Scheduled(plan, e)
    ensures Takes(plan, r) && e == EventOf(plan, r)
  {
    if k :| 0 <= k < |plan.order| && e == Admission(plan, k) {
      r := Role(Arrival, plan.order[k]);
      assert Slot(plan, plan.order[k]) == k;
    } else if i :| 0 <= i < |plan.waiting| && Follows(plan, i, e) {
      r := Role(if e.time != 1.0 then Cleanup else if e.kind.Reuse? then Lookup else Resolution, i);
    } else {
      r := Role(Closing, |plan.waiting|);
    }
  }

  lemma GeneratedIsScheduled(plan: Plan, p: Case, roles: seq<Role>)
    requires Planned(plan) && Complete(plan, p, roles)
    ensures forall e :: e in p.events <==> Scheduled(plan, e)
  {
    hide Scheduled, Listing, Planned;
    forall e ensures e in p.events <==> Scheduled(plan, e) {
      if e in p.events {
        var r := RoleOf(plan, p, roles, e);
        RoleIsScheduled(plan, r);
      }
      if Scheduled(plan, e) {
        var r := ScheduledHasRole(plan, e);
        EventListed(plan, p, roles, r);
      }
    }
  }

  /** Each branch has its State, labelled as planned. */
  ghost predicate Labelled(plan: Plan, states: map<Id, StateSpec>) {
    forall i :: 0 <= i < |plan.waiting| ==>
      && "branch-" + Decimal(i) in states
      && states["branch-" + Decimal(i)] ==
         StateSpec("branch-session", [if plan.waiting[i] then LifeWaiting else LifeSpeculative])
  }

  lemma StatesByName(plan: Plan, states: map<Id, StateSpec>)
    requires States(plan, states)
    ensures Labelled(plan, states)
  {
    forall i | 0 <= i < |plan.waiting| ensures "branch-" + Decimal(i) == StateName(i) {
    }
  }

  /** Whatever the labels and the admission order, the generated program is a branch case with exactly these events. */
  method BuildBranchProgram(plan: Plan) returns (p: Case)
    requires Planned(plan)
    ensures BranchCase(p, 1.0)
    ensures WaitingStates(p) == WaitingNames(plan.waiting, |plan.waiting|)
    ensures forall e :: e in p.events <==> Scheduled(plan, e)
    ensures Labelled(plan, p.states)
    ensures p.sessions == map["branch-session" := true] && p.start == 0.0 && p.end == 1.2
  {
    var states := BuildStates(plan);
    var admits, roles := AdmitEvents(plan);
    var resolved, roles' := ResolveEvents(plan, admits, roles);
    var events, roles'' := CleanupEvents(plan, resolved, roles');
    p := Case(map["branch-session" := true], states, events, 0.0, 1.2);
    StatesByName(plan, states);
    forall r | Takes(plan, r) ensures r in roles'' {
      if r.stage == Arrival {
        assert r == Role(Arrival, r.branch);
      }
    }
    hide Listing, Planned, States, Scheduled, Labelled, BranchCase, WaitingStates, Takes;
    CompleteIsBranchCase(plan, p, roles'');
  }

  lemma CompleteIsBranchCase(plan: Plan, p: Case, roles: seq<Role>)
    requires Planned(plan) && Complete(plan, p, roles)
    ensures BranchCase(p, 1.0) && WaitingStates(p) == WaitingNames(plan.waiting, |plan.waiting|)
    ensures forall e :: e in p.events <==> Scheduled(plan, e)
  {
    hide Listing, Planned, States, Scheduled, WellFormedCase, SingleAdmits, OneAdmitPerState, ResolvedAt, ReusedAt,
        BranchEvent, WaitingStates, WaitingNames;
    ProgramWellFormed(plan, p, roles);
    ProgramSingles(plan, p, roles);
    ProgramResolves(plan, p, roles);
    WaitingIsPlanned(plan, p);
    GeneratedIsScheduled(plan, p, roles);
  }

  lemma WaitingIsPlanned(plan: Plan, p: Case)
    requires States(plan, p.states)
    ensures WaitingStates(p) == WaitingNames(plan.waiting, |plan.waiting|)
  {
    var planned := WaitingNames(plan.waiting, |plan.waiting|);
    forall s ensures s in WaitingStates(p) <==> s in planned {
      if s in p.states {
        var i := BranchOf(plan, p, s);
        WaitingByName(plan, p, i);
      }
      if s in planned {
        var i :| 0 <= i < |plan.waiting| && plan.waiting[i] && StateName(i) == s;
        WaitingByName(plan, p, i);
      }
    }
  }

  // ---------- the hits of the generated program ----------

  function CountWaiting(waiting: seq<bool>): nat {
    if waiting == [] then 0 else CountWaiting(waiting[..|waiting| - 1]) + if waiting[|waiting| - 1] then 1 else 0
  }

  function WaitingNames(waiting: seq<bool>, n: nat): set<Id>
    requires n <= |waiting|
  {
    set i | 0 <= i < n && waiting[i] :: StateName(i)
  }

  lemma NextWaitingName(waiting: seq<bool>, n: nat)
    requires 1 <= n <= |waiting|
    ensures WaitingNames(waiting, n) == if waiting[n - 1] then WaitingNames(waiting, n - 1) + {StateName(n - 1)}
            else WaitingNames(waiting, n - 1)
  {
    hide StateName;
  }

  lemma {:induction false} WaitingNamesCount(waiting: seq<bool>, n: nat)
    requires n <= |waiting|
    ensures |WaitingNames(waiting, n)| == CountWaiting(waiting[..n])
  {
    hide StateName;
    if n == 0 {
      assert WaitingNames(waiting, n) == {};
    } else {
      WaitingNamesCount(waiting, n - 1);
      NextWaitingName(waiting, n);
      LastNameIsNew(waiting, n);
      hide WaitingNames;
      assert waiting[..n][..n - 1] == waiting[..n - 1];
    }
  }

  lemma LastNameIsNew(waiting: seq<bool>, n: nat)
    requires 1 <= n <= |waiting|
    ensures StateName(n - 1) !in WaitingNames(waiting, n - 1)
  {
    forall i | 0 <= i < n - 1 ensures StateName(i) != StateName(n - 1) {
      if StateName(i) == StateName(n - 1) {
        StateNameInjective(i, n - 1);
      }
    }
  }

  /** The minimum of the number of WAITING branches and of the States that fit. */
  lemma AchievableByPlan(plan: Plan, p: Case, cfg: Config)
    requires WaitingStates(p) == WaitingNames(plan.waiting, |plan.waiting|)
    ensures Achievable(p, cfg) == Least(CountWaiting(plan.waiting), Slots(cfg))
  {
    WaitingNamesCount(plan.waiting, |plan.waiting|);
    assert plan.waiting[..|plan.waiting|] == plan.waiting;
  }

  /**
   For any width, labels, admission order and capacity: B4 gets exactly min(#WAITING, slots) reuse hits
   on the generated program, is never infeasible, and no other policy gets more.
   */
  lemma GeneratedProgramOptimal(plan: Plan, p: Case, cfg: Config, other: Config)
    requires BranchCase(p, 1.0) && WaitingStates(p) == WaitingNames(plan.waiting, |plan.waiting|)
    requires Configured(cfg) && Configured(other) && cfg.policy == LifecycleB4 && other.capacity == cfg.capacity
    ensures RunProgram(p, cfg).c.hits == Least(CountWaiting(plan.waiting), Slots(cfg))
    ensures !RunProgram(p, cfg).c.infeasible && !RunProgram(p, cfg).failed
    ensures RunProgram(p, other).c.hits <= RunProgram(p, cfg).c.hits
  {
    hide BranchCase, WellFormedCase, RunProgram, WaitingStates;
    BranchIsWellFormed(p, 1.0);
    B4IsOptimal(p, 1.0, cfg);
    NoPolicyBeatsTheBound(p, 1.0, other);
    AchievableByPlan(plan, p, cfg);
    AchievableByPlan(plan, p, other);
  }
}
