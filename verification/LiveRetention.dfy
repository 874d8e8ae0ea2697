/** The retention engine as the object the program runs, proved against its value form. */
module LiveRetention {
  import opened Entities
  import opened Sorting
  import opened RetentionModel
  import opened RetentionRuns
  import M = RetentionModel

  /** The method went through as the specification says, or raised where the specification fails. */
  predicate Follows(ok: bool, spec: Engine, view: Engine) {
    if ok then view == spec && !spec.failed else spec.failed
  }

  class RetentionRun {
    const p: Case
    const cfg: Config
    var truth: map<Id, Truth>
    var sessions: map<Id, bool>
    var resident: map<Id, Resident>
    var infeasible: bool
    var opportunities: nat
    var hits: nat
    var rejections: nat
    var useful: real
    var wasted: real
    var maxBytes: nat
    var audit: seq<Record>
    var admitted: seq<Id>

    function Contents(): Cache
      reads this
    {
      Cache(truth, sessions, resident, infeasible, opportunities, hits, rejections, useful, wasted)
    }

    function View(): Engine
      reads this
    {
      Engine(Contents(), audit, maxBytes, admitted, false)
    }

    ghost predicate Valid()
      reads this
    {
      Ready(Contents(), p) && Configured(cfg)
    }

    constructor (p: Case, cfg: Config)
      requires WellFormedCase(p) && Configured(cfg)
      ensures Valid() && View() == Start(p) && this.p == p && this.cfg == cfg
    {
      this.p, this.cfg := p, cfg;
      truth := Start(p).c.truth;
      sessions, resident := p.sessions, map[];
      infeasible, opportunities, hits, rejections := false, 0, 0, 0;
      useful, wasted, maxBytes, audit, admitted := 0.0, 0.0, 0, [], [];
    }

    // ---------- records and intervals ----------

    method Note(now: real, kind: AuditKind, state: Option<Id>) returns (ok: bool)
      modifies this`audit, this`maxBytes
      ensures Follows(ok, M.Note(old(View()), cfg, now, kind, state), View())
    {
      var bytes := |resident| * STATE_BYTES;
      audit := audit + [Record(now, kind, state, resident.Keys, bytes, useful, wasted, infeasible)];
      if bytes > maxBytes {
        maxBytes := bytes;
      }
      ok := bytes <= cfg.capacity;
    }

    /** Ends the running interval: useful and restarted on a reuse, wasted and removed otherwise. */
    method CloseInterval(s: Id, now: real, reuse: bool) returns (ok: bool)
      requires s in resident
      modifies this`resident, this`useful, this`wasted
      ensures Follows(ok, if reuse then Touch(old(View()), s, now) else Drop(old(View()), s, now), View())
    {
      var r := resident[s];
      if now < r.since {
        return false;
      }
      var byteSeconds := STATE_BYTES as real * (now - r.since);
      if reuse {
        useful := useful + byteSeconds;
        resident := resident[s := r.(since := now, touched := now)];
      } else {
        wasted := wasted + byteSeconds;
        resident := resident - {s};
      }
      return true;
    }

    method MarkInfeasible(now: real, state: Option<Id>) returns (ok: bool)
      modifies this`infeasible, this`audit, this`maxBytes
      ensures Follows(ok, M.MarkInfeasible(old(View()), cfg, now, state), View())
    {
      infeasible := true;
      ok := Note(now, NoteInfeasible, state);
    }

    // ---------- the external events ----------

    method ProcessInvalidation(s: Id, now: real) returns (ok: bool)
      requires s in truth
      modifies this
      ensures Follows(ok, Invalidated(old(View()), cfg, s, now), View())
    {
      truth := truth[s := truth[s].(valid := false)];
      if s in resident {
        ok := CloseInterval(s, now, false);
        if !ok {
          return;
        }
      }
      ok := Note(now, NoteInvalidated, Some(s));
    }

    method ProcessTruthUpdate(ev: Event) returns (ok: bool)
      requires Valid() && KnownNames(p, ev.kind)
      modifies this
      ensures Follows(ok, PassStep(old(View()), p, cfg, Updating, ev), View())
    {
      match ev.kind
      case Dependents(s, l) =>
        truth := truth[s := truth[s].(lifecycle := DeriveLifecycle(l))];
        ok := Note(ev.time, NoteLifecycle, Some(s));
      case SessionStatus(s, live) =>
        sessions := sessions[s := live];
        ok := Note(ev.time, NoteSession, None);
      case _ => ok := true;
    }

    method ProcessReuse(s: Id, semanticValid: bool, now: real) returns (ok: bool)
      requires s in truth
      modifies this
      ensures Follows(ok, Reused(old(View()), cfg, s, semanticValid, now), View())
    {
      hide M.Note, Touch, Drop, Listed;
      opportunities := opportunities + 1;
      if !(semanticValid && truth[s].valid) {
        rejections := rejections + 1;
        ok := Note(now, NoteReject, Some(s));
        return;
      }
      if s !in resident {
        ok := Note(now, NoteMiss, Some(s));
        return;
      }
      hits := hits + 1;
      ok := CloseInterval(s, now, true);
      if !ok {
        return;
      }
      ok := Note(now, NoteHit, Some(s));
    }

    method Admit(ev: Event) returns (ok: bool)
      requires Valid() && ev.kind.Admit? && KnownNames(p, ev.kind)
      modifies this
      ensures Follows(ok, Admission(old(View()), p, cfg, ev), View())
    {
      var s := ev.kind.state;
      truth := truth[s := truth[s].(produced := true)];
      if !truth[s].valid || s in resident {
        ok := Note(ev.time, NoteSkipped, Some(s));
        return;
      }
      var verdict := Judge(Contents(), p, cfg, s);
      match verdict
      case Skip => ok := Note(ev.time, NoteSkipped, Some(s));
      case Refuse => ok := MarkInfeasible(ev.time, Some(s));
      case Accept =>
        resident := resident[s := NewResident(p, cfg, ev)];
        admitted := admitted + [s];
        ok := true;
    }

    method ProcessEvent(pass: Pass, ev: Event) returns (ok: bool)
      requires Valid() && KnownNames(p, ev.kind)
      modifies this
      ensures Follows(ok, PassStep(old(View()), p, cfg, pass, ev), View())
    {
      hide Invalidated, Relabelled, SessionSet, Reused, Admission, DeriveLifecycle;
      match pass
      case Invalidating => if ev.kind.Invalidate? { ok := ProcessInvalidation(ev.kind.state, ev.time); }
          else { ok := true; }
      case Updating => ok := ProcessTruthUpdate(ev);
      case Reusing => if ev.kind.Reuse? { ok := ProcessReuse(ev.kind.state, ev.kind.semanticValid, ev.time); }
          else { ok := true; }
      case Admitting => if ev.kind.Admit? { ok := Admit(ev); } else { ok := true; }
    }

    /** One of the four passes over the events of an instant. */
    method RunPass(pass: Pass, events: seq<Event>) returns (ok: bool)
      requires Valid() && forall i :: 0 <= i < |events| ==> KnownNames(p, events[i].kind)
      modifies this
      ensures Follows(ok, PassOver(old(View()), p, cfg, pass, events), View()) && (ok ==> Valid())
    {
      hide Ready, PassStep;
      ghost var before := View();
      for k := 0 to |events|
        invariant Valid() && View() == PassOver(before, p, cfg, pass, events[..k])
      {
        assert events[..k + 1][..k] == events[..k];
        ok := ProcessEvent(pass, events[k]);
        if !ok {
          FailurePersists(before, p, cfg, pass, events, k + 1);
          return;
        }
      }
      assert events[..|events|] == events;
      ok := true;
    }

    // ---------- releases and expiries ----------

    /** Each listed State leaves, one record each. */
    method ReleaseAll(ids: seq<Id>, now: real, kind: AuditKind) returns (ok: bool)
      requires forall i :: 0 <= i < |ids| ==> ids[i] in resident
      requires forall i, j :: 0 <= i < j < |ids| ==> ids[i] != ids[j]
      modifies this
      ensures Follows(ok, M.ReleaseAll(old(View()), cfg, ids, now, kind), View())
    {
      hide M.Note, Drop, Listed, M.ReleaseAll, Bytes, Cost;
      ghost var before := View();
      NothingReleased(before, cfg, now, kind);
      for k := 0 to |ids|
        invariant View() == M.ReleaseAll(before, cfg, ids[..k], now, kind)
      {
        ReleaseStep(before, cfg, ids, now, kind, k);
        ok := CloseInterval(ids[k], now, false);
        if ok {
          ok := Note(now, kind, Some(ids[k]));
        }
        if !ok {
          ReleaseFailurePersists(before, cfg, ids, now, kind, k + 1);
          return;
        }
      }
      assert ids[..|ids|] == ids;
      ok := true;
    }

    method PolicyReleases(now: real) returns (ok: bool)
      requires Regular(cfg.host)
      modifies this
      ensures Follows(ok, M.PolicyReleases(old(View()), p, cfg, now), View())
    {
      hide M.ReleaseAll, SortedNames;
      var toRelease := SortedNames(Releasable(Contents(), p, cfg), cfg.host);
      SortedNamesIndexed(Releasable(Contents(), p, cfg), cfg.host);
      ok := ReleaseAll(toRelease, now, NoteReleased);
    }

    /** The due States leave; one whose expiry is not exactly now raises. */
    method TtlExpiries(now: real) returns (ok: bool)
      requires Regular(cfg.host)
      modifies this
      ensures Follows(ok, M.TtlExpiries(old(View()), cfg, now), View())
    {
      hide M.ReleaseAll, SortedNames;
      var expired := SortedNames(Expired(Contents(), cfg, now), cfg.host);
      SortedNamesIndexed(Expired(Contents(), cfg, now), cfg.host);
      for k := 0 to |expired|
        invariant forall i :: 0 <= i < k ==> resident[expired[i]].expiry == Some(now)
      {
        if resident[expired[k]].expiry != Some(now) {
          assert expired[k] in Expired(Contents(), cfg, now);
          return false;
        }
      }
      assert forall s :: s in Expired(Contents(), cfg, now) ==> s in expired;
      ok := ReleaseAll(expired, now, NoteExpired);
    }

    // ---------- capacity ----------

    /** The candidate with the least eviction key. */
    method FindVictim(candidates: set<Id>) returns (v: Id)
      requires Regular(cfg.host) && resident.Keys <= truth.Keys && candidates == Candidates(Contents(), cfg)
      requires candidates != {}
      ensures v == Victim(Contents(), cfg)
    {
      hide KeyLe;
      v :| v in candidates;
      var todo := candidates - {v};
      KeyLeTotal(Contents(), cfg, v, v);
      while todo != {}
        invariant v in candidates && todo <= candidates && v !in todo
        invariant forall u :: u in candidates && u !in todo ==> KeyLe(Contents(), cfg, v, u)
        decreases todo
      {
        var u :| u in todo;
        todo := todo - {u};
        if !KeyLe(Contents(), cfg, v, u) {
          KeyLeTotal(Contents(), cfg, v, u);
          KeyLeTotal(Contents(), cfg, u, u);
          forall w | w in candidates && w !in todo ensures KeyLe(Contents(), cfg, u, w) {
            if w != u {
              KeyLeTrans(Contents(), cfg, u, v, w);
            }
          }
          v := u;
        }
      }
      VictimUnique(Contents(), cfg, v, Victim(Contents(), cfg));
    }

    /** Evicts least keys until the resident bytes fit. */
    method EvictToCapacity(now: real) returns (ok: bool, evicted: seq<Id>)
      requires Regular(cfg.host) && resident.Keys <= truth.Keys
      modifies this`resident, this`wasted, this`useful
      ensures Follows(ok, EvictDown(old(View()), cfg, now).e, View())
      ensures ok ==> evicted == EvictDown(old(View()), cfg, now).evicted
    {
      hide KeyLe, IsVictim, Drop, Touch;
      ghost var before := View();
      evicted := [];
      while |resident| * STATE_BYTES > cfg.capacity
        invariant resident.Keys <= truth.Keys && truth == before.c.truth
        invariant EvictDown(before, cfg, now).e == EvictDown(View(), cfg, now).e
        invariant EvictDown(before, cfg, now).evicted == evicted + EvictDown(View(), cfg, now).evicted
        invariant View() == before.(c := before.c.(resident := resident, wasted := wasted, useful := useful))
        decreases |resident|
      {
        var candidates := Candidates(Contents(), cfg);
        if candidates == {} {
          return false, evicted;
        }
        var v := FindVictim(candidates);
        DropShrinks(View(), cfg, v, now);
        ok := CloseInterval(v, now, false);
        if !ok {
          return;
        }
        evicted := evicted + [v];
      }
      ok := true;
    }

    method NoteAll(ids: seq<Id>, now: real, kind: AuditKind) returns (ok: bool)
      modifies this`audit, this`maxBytes
      ensures Follows(ok, M.NoteAll(old(View()), cfg, ids, now, kind), View())
    {
      hide M.Note;
      ghost var before := View();
      for k := 0 to |ids|
        invariant View() == M.NoteAll(before, cfg, ids[..k], now, kind)
      {
        assert ids[..k + 1][..k] == ids[..k];
        ok := Note(now, kind, Some(ids[k]));
        if !ok {
          NoteAllFailurePersists(before, cfg, ids, now, kind, k + 1);
          return;
        }
      }
      assert ids[..|ids|] == ids;
      ok := true;
    }

    method NoteAdmissions(ids: seq<Id>, now: real) returns (ok: bool)
      modifies this`audit, this`maxBytes
      ensures Follows(ok, M.NoteAdmissions(old(View()), cfg, ids, now), View())
    {
      hide M.Note, Explained;
      ghost var before := View();
      ok := true;
      for k := 0 to |ids|
        invariant ok && View() == M.NoteAdmissions(before, cfg, ids[..k], now)
      {
        assert ids[..k + 1][..k] == ids[..k];
        if ids[k] in resident {
          ok := Note(now, NoteAdmitted, Some(ids[k]));
        } else if !Explained(audit, ids[k], now) {
          ok := Note(now, NoteSkipped, Some(ids[k]));
        }
        if !ok {
          NoteAdmissionsFailurePersists(before, cfg, ids, now, k + 1);
          return;
        }
      }
      assert ids[..|ids|] == ids;
    }

    method CapacityEnforce(now: real) returns (ok: bool)
      requires Regular(cfg.host) && resident.Keys <= truth.Keys
      modifies this
      ensures Follows(ok, Enforce(old(View()), cfg, now), View())
    {
      hide EvictDown, M.NoteAll, M.NoteAdmissions, M.MarkInfeasible;
      var evicted: seq<Id> := [];
      if cfg.policy == SessionPinning {
        if |resident| * STATE_BYTES > cfg.capacity {
          return false;
        }
      } else {
        if cfg.policy == LifecycleB4 && ActiveBytes(Contents()) > cfg.capacity {
          ok := MarkInfeasible(now, None);
          if !ok {
            return;
          }
        }
        ok, evicted := EvictToCapacity(now);
        if !ok {
          return;
        }
      }
      ok := NoteAll(evicted, now, NoteEvicted);
      if !ok {
        return;
      }
      ok := NoteAdmissions(admitted, now);
    }

    // ---------- instants and the main loop ----------

    /** Everything that happens at one time, in the fixed order of the phases. */
    method HandleInstant(events: seq<Event>, now: real) returns (ok: bool)
      requires Valid() && forall i :: 0 <= i < |events| ==> KnownNames(p, events[i].kind)
      modifies this
      ensures Follows(ok, Instant(old(View()), p, cfg, events, now), View())
      ensures ok ==> Valid()
    {
      hide Ready, PassOver, M.PolicyReleases, M.TtlExpiries, Enforce;
      ReadyInside(Contents(), p);
      ok := RunPass(Invalidating, events);
      if !ok { return; }
      ok := RunPass(Updating, events);
      if !ok { return; }
      ghost var updated := View();
      ok := PolicyReleases(now);
      if !ok { return; }
      ok := TtlExpiries(now);
      if !ok { return; }
      ReleasedReady(updated, p, cfg, now);
      ok := RunPass(Reusing, events);
      if !ok { return; }
      admitted := [];
      ok := RunPass(Admitting, events);
      if !ok { return; }
      ReadyInside(Contents(), p);
      ok := CapacityEnforce(now);
      if !ok { return; }
      ok := Note(now, NoteCheckpoint, None);
    }

    /** The earliest expiry after a time, if any. */
    method NextExpiry(after: real) returns (r: Option<real>)
      ensures r == RetentionRuns.NextExpiry(Contents(), cfg, after)
    {
      r := None;
      var todo := resident.Keys;
      while todo != {}
        invariant todo <= resident.Keys
        invariant r.Some? ==> exists s :: Due(Contents(), cfg, after, s) && resident[s].expiry == r
        invariant forall s :: Due(Contents(), cfg, after, s) && s !in todo ==>
                  r.Some? && r.value <= resident[s].expiry.value
        decreases todo
      {
        var s :| s in todo;
        todo := todo - {s};
        if Due(Contents(), cfg, after, s) && (r.None? || resident[s].expiry.value < r.value) {
          r := resident[s].expiry;
        }
      }
      EarliestIs(Contents(), cfg, after, r);
    }

    /**
     The whole program: the instants in increasing order, the unprocessed-events check, and the release
     of what is left at the Program end.
     */
    method Run() returns (ok: bool)
      requires Valid() && WellFormedCase(p) && View() == Start(p)
      modifies this
      ensures Follows(ok, RunProgram(p, cfg), View())
    {
      hide WellFormedCase, Turn, Advance, RunFrom, Upcoming, Ready, Finish, NextInstant, Events, KnownNames, Instant;
      var times := ExternalTimes(p.events);
      var index := 0;
      var last := p.start - 1.0;
      FirstTurnIs(p, cfg);
      ghost var start := FirstTurn(p);
      while true
        invariant Valid() && index <= |times| && Turn(Loop(View(), index, last), p, cfg, times)
        invariant Turn(start, p, cfg, times)
        invariant RunFrom(start, p, cfg, times) == RunFrom(Loop(View(), index, last), p, cfg, times)
        decreases |times| - index, |resident.Keys|
      {
        ghost var l := Loop(View(), index, last);
        var expiry := NextExpiry(last);
        var next := NextInstant(NextExternal(times, index), expiry, p.end);
        UpcomingIs(l, p, cfg, times);
        if next.None? {
          RunEnds(l, p, cfg, times);
          break;
        }
        var now := next.value;
        RunContinues(l, p, cfg, times, now);
        AdvanceDecreases(l, p, cfg, times);
        var events := Events(p, times, index, now);
        BatchKnown(p, times, index, now);
        AdvanceIs(l, p, cfg, times, now);
        ok := HandleInstant(events, now);
        if !ok {
          FailedRunFails(l, p, cfg, times, now);
          return;
        }
        if NextExternal(times, index) == Some(now) {
          index := index + 1;
        }
        last := now;
      }
      ghost var looped := Loop(View(), index, last);
      if index != |times| {
        UnprocessedEvents(looped, p, cfg);
        return false;
      }
      ok := ReleaseRemaining(looped);
    }

    method ReleaseRemaining(ghost l: Loop) returns (ok: bool)
      requires Valid() && l.e == View() && l.k == |ExternalTimes(p.events)|
      modifies this
      ensures Follows(ok, Finish(l, p, cfg), View())
    {
      hide SortedNames, M.ReleaseAll, Ready, Finish;
      FinishIs(l, p, cfg);
      var left := SortedNames(resident.Keys, cfg.host);
      ok := ReleaseAll(left, p.end, NoteProgramEnd);
      if !ok {
        return;
      }
      ok := Note(p.end, NoteCheckpoint, None);
    }
  }

  lemma {:induction false} FailurePersists(e: Engine, p: Case, cfg: Config, pass: Pass, q: seq<Event>, k: nat)
    requires Ready(e.c, p) && (forall i :: 0 <= i < |q| ==> KnownNames(p, q[i].kind)) && k <= |q|
    requires PassOver(e, p, cfg, pass, q[..k]).failed
    ensures PassOver(e, p, cfg, pass, q).failed
    decreases |q| - k
  {
    hide Ready, PassStep;
    if k == |q| {
      assert q[..k] == q;
    } else {
      assert q[..k + 1][..k] == q[..k];
      FailurePersists(e, p, cfg, pass, q, k + 1);
    }
  }

  lemma NothingReleased(e: Engine, cfg: Config, now: real, kind: AuditKind)
    ensures M.ReleaseAll(e, cfg, [], now, kind) == e
  {
  }

  lemma ReleaseStep(e: Engine, cfg: Config, ids: seq<Id>, now: real, kind: AuditKind, k: nat)
    requires forall i :: 0 <= i < |ids| ==> ids[i] in e.c.resident
    requires forall i, j :: 0 <= i < j < |ids| ==> ids[i] != ids[j]
    requires k < |ids|
    ensures var before := M.ReleaseAll(e, cfg, ids[..k], now, kind);
            && ids[k] in before.c.resident
            && M.ReleaseAll(e, cfg, ids[..k + 1], now, kind) ==
               M.Note(Drop(before, ids[k], now), cfg, now, kind, Some(ids[k]))
  {
    hide M.Note, Drop;
    assert ids[..k + 1][..k] == ids[..k];
    LastRemains(e.c.resident, ids[..k + 1]);
  }

  lemma {:induction false} ReleaseFailurePersists(e: Engine, cfg: Config, ids: seq<Id>, now: real, kind: AuditKind,
      k: nat)
    requires forall i :: 0 <= i < |ids| ==> ids[i] in e.c.resident
    requires forall i, j :: 0 <= i < j < |ids| ==> ids[i] != ids[j]
    requires k <= |ids| && M.ReleaseAll(e, cfg, ids[..k], now, kind).failed
    ensures M.ReleaseAll(e, cfg, ids, now, kind).failed
    decreases |ids| - k
  {
    hide M.Note, Drop, M.ReleaseAll, Listed;
    if k == |ids| {
      assert ids[..k] == ids;
    } else {
      ReleaseStep(e, cfg, ids, now, kind, k);
      ReleaseFailurePersists(e, cfg, ids, now, kind, k + 1);
    }
  }

  lemma DropShrinks(e: Engine, cfg: Config, v: Id, now: real)
    requires v in e.c.resident
    ensures |Drop(e, v, now).c.resident| < |e.c.resident| && Drop(e, v, now).c.resident.Keys <= e.c.resident.Keys
  {
    assert (e.c.resident - {v}).Keys == e.c.resident.Keys - {v};
  }

  lemma {:induction false} NoteAllFailurePersists(e: Engine, cfg: Config, ids: seq<Id>, now: real, kind: AuditKind,
      k: nat)
    requires k <= |ids| && M.NoteAll(e, cfg, ids[..k], now, kind).failed
    ensures M.NoteAll(e, cfg, ids, now, kind).failed
    decreases |ids| - k
  {
    hide M.Note;
    if k == |ids| {
      assert ids[..k] == ids;
    } else {
      assert ids[..k + 1][..k] == ids[..k];
      NoteAllFailurePersists(e, cfg, ids, now, kind, k + 1);
    }
  }

  lemma {:induction false} NoteAdmissionsFailurePersists(e: Engine, cfg: Config, ids: seq<Id>, now: real, k: nat)
    requires k <= |ids| && M.NoteAdmissions(e, cfg, ids[..k], now).failed
    ensures M.NoteAdmissions(e, cfg, ids, now).failed
    decreases |ids| - k
  {
    hide M.Note, Explained;
    if k == |ids| {
      assert ids[..k] == ids;
    } else {
      assert ids[..k + 1][..k] == ids[..k];
      NoteAdmissionsFailurePersists(e, cfg, ids, now, k + 1);
    }
  }

  /** A due expiry that none precedes is the next one. */
  lemma EarliestIs(c: Cache, cfg: Config, after: real, r: Option<real>)
    requires r.Some? ==> exists s :: Due(c, cfg, after, s) && c.resident[s].expiry == r
    requires forall s :: Due(c, cfg, after, s) ==> r.Some? && r.value <= c.resident[s].expiry.value
    ensures r == RetentionRuns.NextExpiry(c, cfg, after)
  {
    var n := RetentionRuns.NextExpiry(c, cfg, after);
    if n.Some? {
      var s :| Due(c, cfg, after, s) && c.resident[s].expiry == n;
    }
    if r.Some? {
      var s :| Due(c, cfg, after, s) && c.resident[s].expiry == r;
    }
  }

  // ---------- one turn of the loop, in the terms of its specification ----------

  lemma FirstTurnIs(p: Case, cfg: Config)
    requires WellFormedCase(p) && Configured(cfg)
    ensures FirstTurn(p) == Loop(Start(p), 0, p.start - 1.0) && Turn(FirstTurn(p), p, cfg, ExternalTimes(p.events))
  {
  }

  lemma UpcomingIs(l: Loop, p: Case, cfg: Config, times: seq<real>)
    ensures Upcoming(l.e, p, cfg, times, l.k, l.last)
            == NextInstant(NextExternal(times, l.k), RetentionRuns.NextExpiry(l.e.c, cfg, l.last), p.end)
  {
  }

  lemma RunEnds(l: Loop, p: Case, cfg: Config, times: seq<real>)
    requires Turn(l, p, cfg, times) && Upcoming(l.e, p, cfg, times, l.k, l.last).None?
    ensures RunFrom(l, p, cfg, times) == l
  {
    hide Turn, Upcoming;
  }

  lemma RunContinues(l: Loop, p: Case, cfg: Config, times: seq<real>, now: real)
    requires Turn(l, p, cfg, times) && Upcoming(l.e, p, cfg, times, l.k, l.last) == Some(now)
    ensures RunFrom(l, p, cfg, times) == RunFrom(Advance(l, p, cfg, times, now), p, cfg, times)
  {
    hide Turn, Upcoming, Advance;
  }

  lemma AdvanceIs(l: Loop, p: Case, cfg: Config, times: seq<real>, now: real)
    requires Turn(l, p, cfg, times)
    ensures Ready(l.e.c, p) && Regular(cfg.host)
    ensures forall i :: 0 <= i < |Events(p, times, l.k, now)| ==> KnownNames(p, Events(p, times, l.k, now)[i].kind)
    ensures Advance(l, p, cfg, times, now)
            == Loop(Instant(l.e, p, cfg, Events(p, times, l.k, now), now), if NextExternal(times, l.k) ==
                Some(now) then l.k + 1 else l.k, now)
  {
    hide Turn, WellFormedCase, Instant, Events, KnownNames;
    TurnReady(l, p, cfg, times);
    TurnOfCase(l, p, cfg, times);
    BatchKnown(p, times, l.k, now);
  }

  lemma FailedRunFails(l: Loop, p: Case, cfg: Config, times: seq<real>, now: real)
    requires Turn(l, p, cfg, times) && Upcoming(l.e, p, cfg, times, l.k, l.last) == Some(now)
    requires times == ExternalTimes(p.events) && Configured(cfg) && Advance(l, p, cfg, times, now).e.failed
    ensures Finish(RunFrom(l, p, cfg, times), p, cfg).failed
  {
    hide Turn, Upcoming, Advance, RunFrom;
    RunContinues(l, p, cfg, times, now);
  }

  lemma UnprocessedEvents(l: Loop, p: Case, cfg: Config)
    requires Configured(cfg) && l.k != |ExternalTimes(p.events)|
    ensures Finish(l, p, cfg).failed
  {
    SortedNamesIndexed(l.e.c.resident.Keys, cfg.host);
    hide SortedNames;
  }

  lemma FinishIs(l: Loop, p: Case, cfg: Config)
    requires Configured(cfg) && l.k == |ExternalTimes(p.events)|
    ensures var ids := SortedNames(l.e.c.resident.Keys, cfg.host);
            && (forall i :: 0 <= i < |ids| ==> ids[i] in l.e.c.resident) && (forall i, j :: 0 <= i < j < |ids| ==>
               ids[i] != ids[j])
            && Finish(l, p, cfg) == M.Note(M.ReleaseAll(l.e, cfg, ids, p.end, NoteProgramEnd), cfg, p.end,
               NoteCheckpoint, None)
  {
    SortedNamesIndexed(l.e.c.resident.Keys, cfg.host);
    hide SortedNames, M.ReleaseAll, M.Note;
    assert l.e.(failed := l.e.failed || l.k != |ExternalTimes(p.events)|) == l.e;
  }
}
