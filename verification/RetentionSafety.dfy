/**
 Safety of single steps: an ADMIT raises exactly when an earlier one of its instant overflowed the cache and
 it is itself skipped or refused; every other step keeps the run unfailed and its expiries in the future, and
 an enforcement always finds a victim and ends within capacity.
 */
module RetentionSafety {
  import opened Entities
  import opened Sorting
  import opened RetentionModel

  ghost predicate SingleAdmits(p: Case) {
    forall a, b :: a in p.events && b in p.events && a.kind.Admit? && b.kind.Admit? && a.time == b.time ==> a == b
  }

  predicate Timely(r: Resident, cfg: Config, now: real) {
    r.since == r.touched && r.since <= now && (r.expiry.Some? <==> cfg.policy == FixedTtl)
  }

  ghost predicate AllTimely(c: Cache, cfg: Config, now: real) {
    forall s :: s in c.resident ==> Timely(c.resident[s], cfg, now)
  }

  ghost predicate AuditFits(e: Engine, cfg: Config) {
    e.maxBytes <= cfg.capacity && forall r :: r in e.audit ==> r.bytes <= cfg.capacity
  }

  /** Nothing raised, nothing overcommitted on record, every interval started by now. */
  ghost predicate Good(e: Engine, cfg: Config, now: real) {
    !e.failed && AuditFits(e, cfg) && AllTimely(e.c, cfg, now)
  }

  predicate Fits(e: Engine, cfg: Config) {
    Bytes(e.c) <= cfg.capacity
  }

  // ---------- single steps ----------

  lemma NoteKeepsGood(e: Engine, cfg: Config, now: real, kind: AuditKind, state: Option<Id>)
    requires Good(e, cfg, now) && Fits(e, cfg)
    ensures Good(Note(e, cfg, now, kind, state), cfg, now)
  {
  }

  lemma DropKeepsGood(e: Engine, cfg: Config, s: Id, now: real)
    requires Good(e, cfg, now) && s in e.c.resident
    ensures Good(Drop(e, s, now), cfg, now)
    ensures |Drop(e, s, now).c.resident| == |e.c.resident| - 1
  {
    assert Timely(e.c.resident[s], cfg, now);
    assert (e.c.resident - {s}).Keys == e.c.resident.Keys - {s};
  }

  lemma TouchKeepsGood(e: Engine, cfg: Config, s: Id, now: real)
    requires Good(e, cfg, now) && s in e.c.resident
    ensures Good(Touch(e, s, now), cfg, now)
    ensures |Touch(e, s, now).c.resident| == |e.c.resident|
  {
    assert Timely(e.c.resident[s], cfg, now);
    assert e.c.resident[s := e.c.resident[s].(since := now, touched := now)].Keys == e.c.resident.Keys;
  }

  /** Every step of the first three passes keeps a good, fitting engine so. */
  lemma PassStepKeepsGood(e: Engine, p: Case, cfg: Config, pass: Pass, ev: Event)
    requires Ready(e.c, p) && KnownNames(p, ev.kind) && pass != Admitting
    requires Good(e, cfg, ev.time) && Fits(e, cfg)
    ensures Good(PassStep(e, p, cfg, pass, ev), cfg, ev.time) && Fits(PassStep(e, p, cfg, pass, ev), cfg)
  {
    hide Good, Ready;
    match ev.kind
    case Invalidate(s) => InvalidatedKeepsGood(e, p, cfg, s, ev.time);
    case Reuse(s, valid) => ReusedKeepsGood(e, p, cfg, s, valid, ev.time);
    case Dependents(s, l) => UpdatedKeepsGood(e, p, cfg, ev);
    case SessionStatus(s, live) => UpdatedKeepsGood(e, p, cfg, ev);
    case Admit(_) =>
  }

  lemma InvalidatedKeepsGood(e: Engine, p: Case, cfg: Config, s: Id, now: real)
    requires Ready(e.c, p) && s in p.states && Good(e, cfg, now) && Fits(e, cfg)
    ensures Good(Invalidated(e, cfg, s, now), cfg, now) && Fits(Invalidated(e, cfg, s, now), cfg)
  {
    var marked := e.(c := e.c.(truth := e.c.truth[s := e.c.truth[s].(valid := false)]));
    assert Good(marked, cfg, now);
    if s in e.c.resident {
      DropKeepsGood(marked, cfg, s, now);
      NoteKeepsGood(Drop(marked, s, now), cfg, now, NoteInvalidated, Some(s));
    } else {
      NoteKeepsGood(marked, cfg, now, NoteInvalidated, Some(s));
    }
  }

  lemma ReusedKeepsGood(e: Engine, p: Case, cfg: Config, s: Id, valid: bool, now: real)
    requires Ready(e.c, p) && s in p.states && Good(e, cfg, now) && Fits(e, cfg)
    ensures Good(Reused(e, cfg, s, valid, now), cfg, now) && Fits(Reused(e, cfg, s, valid, now), cfg)
  {
    if valid && e.c.truth[s].valid && s in e.c.resident {
      var hit := e.(c := e.c.(opportunities := e.c.opportunities + 1, hits := e.c.hits + 1));
      assert Good(hit, cfg, now);
      TouchKeepsGood(hit, cfg, s, now);
      NoteKeepsGood(Touch(hit, s, now), cfg, now, NoteHit, Some(s));
    }
  }

  lemma UpdatedKeepsGood(e: Engine, p: Case, cfg: Config, ev: Event)
    requires Ready(e.c, p) && KnownNames(p, ev.kind) && (ev.kind.Dependents? || ev.kind.SessionStatus?)
    requires Good(e, cfg, ev.time) && Fits(e, cfg)
    ensures Good(PassStep(e, p, cfg, Updating, ev), cfg, ev.time) && Fits(PassStep(e, p, cfg, Updating, ev), cfg)
  {
  }

  lemma {:induction false} PassKeepsGood(e: Engine, p: Case, cfg: Config, pass: Pass, q: seq<Event>, now: real)
    requires Ready(e.c, p) && (forall i :: 0 <= i < |q| ==> KnownNames(p, q[i].kind) && q[i].time == now)
    requires pass != Admitting
    requires Good(e, cfg, now) && Fits(e, cfg)
    ensures Good(PassOver(e, p, cfg, pass, q), cfg, now) && Fits(PassOver(e, p, cfg, pass, q), cfg)
  {
    hide Good, Fits, Ready, PassStep;
    if q != [] {
      var n := |q| - 1;
      PassKeepsGood(e, p, cfg, pass, q[..n], now);
      PassStepKeepsGood(PassOver(e, p, cfg, pass, q[..n]), p, cfg, pass, q[n]);
    }
  }

  lemma DropFits(e: Engine, cfg: Config, s: Id, now: real)
    requires s in e.c.resident && Fits(e, cfg)
    ensures Fits(Drop(e, s, now), cfg)
  {
    SubsetSmaller((e.c.resident - {s}).Keys, e.c.resident.Keys);
  }

  lemma NoteFits(e: Engine, cfg: Config, now: real, kind: AuditKind, state: Option<Id>)
    ensures Fits(Note(e, cfg, now, kind, state), cfg) <==> Fits(e, cfg)
  {
  }

  lemma {:induction false} ReleaseKeepsGood(e: Engine, cfg: Config, ids: seq<Id>, now: real, kind: AuditKind)
    requires (forall i :: 0 <= i < |ids| ==> ids[i] in e.c.resident) && forall i, j :: 0 <= i < j < |ids| ==>
             ids[i] != ids[j]
    requires Good(e, cfg, now) && Fits(e, cfg)
    ensures Good(ReleaseAll(e, cfg, ids, now, kind), cfg, now) && Fits(ReleaseAll(e, cfg, ids, now, kind), cfg)
  {
    hide Good, Fits, Drop, Note, Listed;
    if ids != [] {
      var n := |ids| - 1;
      ReleaseKeepsGood(e, cfg, ids[..n], now, kind);
      var before := ReleaseAll(e, cfg, ids[..n], now, kind);
      LastRemains(e.c.resident, ids);
      DropKeepsGood(before, cfg, ids[n], now);
      DropFits(before, cfg, ids[n], now);
      NoteKeepsGood(Drop(before, ids[n], now), cfg, now, kind, Some(ids[n]));
      NoteFits(Drop(before, ids[n], now), cfg, now, kind, Some(ids[n]));
    }
  }

  // ---------- releases and expiries ----------

  /** No expiry of a resident State has been missed: all lie after the last instant. */
  ghost predicate NoneMissed(c: Cache, last: real) {
    forall s :: s in c.resident && c.resident[s].expiry.Some? ==> c.resident[s].expiry.value > last
  }

  /** Nothing falls due before `now`. */
  ghost predicate NoneEarlier(c: Cache, now: real) {
    forall s :: s in c.resident && c.resident[s].expiry.Some? ==> c.resident[s].expiry.value >= now
  }

  lemma GoodIsTimely(e: Engine, cfg: Config, now: real)
    requires Good(e, cfg, now)
    ensures AllTimely(e.c, cfg, now)
  {
  }

  lemma ReleasesKeepGood(e: Engine, p: Case, cfg: Config, now: real)
    requires Regular(cfg.host) && Good(e, cfg, now) && Fits(e, cfg) && NoneEarlier(e.c, now)
    ensures var r := TtlExpiries(PolicyReleases(e, p, cfg, now), cfg, now);
            && Good(r, cfg, now) && Fits(r, cfg)
            && r.c.resident.Keys <= e.c.resident.Keys && NoneMissed(r.c, now)
  {
    hide Good, Fits, Timely;
    GoodIsTimely(e, cfg, now);
    SortedNamesIndexed(Releasable(e.c, p, cfg), cfg.host);
    ReleaseKeepsGood(e, cfg, SortedNames(Releasable(e.c, p, cfg), cfg.host), now, NoteReleased);
    var released := PolicyReleases(e, p, cfg, now);
    SortedNamesIndexed(Expired(released.c, cfg, now), cfg.host);
    ReleaseKeepsGood(released, cfg, SortedNames(Expired(released.c, cfg, now), cfg.host), now, NoteExpired);
    ExpiriesLeaveGood(released, cfg, now);
  }

  lemma ExpiriesLeaveGood(e: Engine, cfg: Config, now: real)
    requires Regular(cfg.host) && NoneEarlier(e.c, now) && AllTimely(e.c, cfg, now)
    requires var ids := SortedNames(Expired(e.c, cfg, now), cfg.host);
             && (forall i :: 0 <= i < |ids| ==> ids[i] in e.c.resident)
             && (forall i, j :: 0 <= i < j < |ids| ==> ids[i] != ids[j])
             && Good(ReleaseAll(e, cfg, ids, now, NoteExpired), cfg, now)
    ensures Good(TtlExpiries(e, cfg, now), cfg, now) && NoneMissed(TtlExpiries(e, cfg, now).c, now)
  {
    assert forall s :: s in Expired(e.c, cfg, now) ==> e.c.resident[s].expiry == Some(now);
    var r := TtlExpiries(e, cfg, now);
    forall s | s in r.c.resident && r.c.resident[s].expiry.Some? ensures r.c.resident[s].expiry.value > now {
      assert Timely(e.c.resident[s], cfg, now);
      assert s !in Expired(e.c, cfg, now);
    }
  }

  // ---------- admission ----------

  /** With at most one ADMIT among them, the events of an instant admit like that one event. */
  lemma {:induction false} AdmitPassIsOneStep(e: Engine, p: Case, cfg: Config, q: seq<Event>)
    requires Ready(e.c, p) && forall i :: 0 <= i < |q| ==> KnownNames(p, q[i].kind)
    requires forall i, j :: 0 <= i < j < |q| ==> !(q[i].kind.Admit? && q[j].kind.Admit?)
    ensures var r := PassOver(e, p, cfg, Admitting, q);
            || (r == e && forall i :: 0 <= i < |q| ==> !q[i].kind.Admit?)
            || exists i :: 0 <= i < |q| && q[i].kind.Admit? && r == PassStep(e, p, cfg, Admitting, q[i])
  {
    hide Ready, PassStep;
    if q != [] {
      var n := |q| - 1;
      AdmitPassIsOneStep(e, p, cfg, q[..n]);
      var before := PassOver(e, p, cfg, Admitting, q[..n]);
      if q[n].kind.Admit? {
        assert before == e;
      } else {
        OtherEventsDoNotAdmit(before, p, cfg, q[n]);
        if before != e {
          var i :| 0 <= i < n && q[..n][i].kind.Admit? && before == PassStep(e, p, cfg, Admitting, q[..n][i]);
          assert q[i] == q[..n][i];
        }
      }
    }
  }

  lemma OtherEventsDoNotAdmit(e: Engine, p: Case, cfg: Config, ev: Event)
    requires Ready(e.c, p) && KnownNames(p, ev.kind) && !ev.kind.Admit?
    ensures PassStep(e, p, cfg, Admitting, ev) == e
  {
  }

  /** What enforcement can repair: B4 protects no more than the capacity; pinning never overcommits. */
  predicate Repairable(c: Cache, cfg: Config) {
    && (cfg.policy == LifecycleB4 ==> ActiveBytes(c) <= cfg.capacity)
    && (cfg.policy == SessionPinning ==> Bytes(c) <= cfg.capacity)
  }

  lemma FitsRepairable(c: Cache, cfg: Config)
    requires Bytes(c) <= cfg.capacity
    ensures Repairable(c, cfg)
  {
    SubsetSmaller(ActiveResidents(c), c.resident.Keys);
  }

  lemma ActiveAdded(c: Cache, s: Id, r: Resident)
    requires s !in c.resident && s in c.truth
    ensures ActiveResidents(c.(resident := c.resident[s := r])) ==
            if c.truth[s].lifecycle == Active then ActiveResidents(c) + {s} else ActiveResidents(c)
    ensures s !in ActiveResidents(c)
  {
    var after, before := ActiveResidents(c.(resident := c.resident[s := r])), ActiveResidents(c);
    forall x ensures x in after <==> x in before || (x == s && c.truth[s].lifecycle == Active) {
    }
  }

  lemma AddedCounts(c: Cache, s: Id, r: Resident)
    requires s !in c.resident && s in c.truth
    ensures var c' := c.(resident := c.resident[s := r]);
            && |c'.resident| == |c.resident| + 1
            && |ActiveResidents(c')| == |ActiveResidents(c)| + if c.truth[s].lifecycle == Active then 1 else 0
  {
    ActiveAdded(c, s, r);
    hide ActiveResidents;
    assert c.resident[s := r].Keys == c.resident.Keys + {s};
  }

  lemma AddedBytes(c: Cache, s: Id, r: Resident)
    requires s !in c.resident && s in c.truth
    ensures var c' := c.(resident := c.resident[s := r]);
            && Bytes(c') == Bytes(c) + STATE_BYTES
            && ActiveBytes(c') == ActiveBytes(c) + if c.truth[s].lifecycle == Active then STATE_BYTES else 0
  {
    AddedCounts(c, s, r);
    hide ActiveResidents;
  }

  lemma AdmissionKeepsRepairable(c: Cache, cfg: Config, s: Id, r: Resident)
    requires s !in c.resident && s in c.truth && Repairable(c, cfg)
    requires cfg.policy == LifecycleB4 && c.truth[s].lifecycle == Active ==>
             ActiveBytes(c) + STATE_BYTES <= cfg.capacity
    requires cfg.policy == SessionPinning ==> Bytes(c) + STATE_BYTES <= cfg.capacity
    ensures Repairable(c.(resident := c.resident[s := r]), cfg)
  {
    hide Bytes, ActiveBytes;
    AddedBytes(c, s, r);
  }

  /** The State of this ADMIT is valid, absent and accepted by the policy, so nothing is recorded yet. */
  predicate Admits(e: Engine, p: Case, cfg: Config, ev: Event)
    requires Ready(e.c, p) && KnownNames(p, ev.kind) && ev.kind.Admit?
  {
    var s := ev.kind.state;
    var produced := e.c.(truth := e.c.truth[s := e.c.truth[s].(produced := true)]);
    e.c.truth[s].valid && s !in e.c.resident && Judge(produced, p, cfg, s) == Accept
  }

  /** An earlier ADMIT of the instant overflowed the cache and this one is skipped or refused. */
  predicate Overtaken(e: Engine, p: Case, cfg: Config, ev: Event)
    requires Ready(e.c, p) && KnownNames(p, ev.kind)
  {
    ev.kind.Admit? && Bytes(e.c) > cfg.capacity && !Admits(e, p, cfg, ev)
  }

  /** An ADMIT raises exactly when it is overtaken; otherwise enforcement can still repair the cache. */
  lemma AdmissionRaisesIffOvertaken(e: Engine, p: Case, cfg: Config, ev: Event)
    requires Ready(e.c, p) && KnownNames(p, ev.kind) && cfg.ttl > 0.0
    requires Good(e, cfg, ev.time) && Repairable(e.c, cfg) && NoneMissed(e.c, ev.time)
    ensures var r := PassStep(e, p, cfg, Admitting, ev);
            && (r.failed <==> Overtaken(e, p, cfg, ev))
            && (!r.failed ==> Good(r, cfg, ev.time) && Repairable(r.c, cfg) && NoneMissed(r.c, ev.time))
  {
    if ev.kind.Admit? {
      if Admits(e, p, cfg, ev) {
        AcceptedKeepsGood(e, p, cfg, ev);
      } else {
        TurnedDownIsNoted(e, p, cfg, ev);
      }
    }
    hide Note, Good, Repairable, NoneMissed, Judge, Admission, NewResident;
  }

  lemma AcceptedKeepsGood(e: Engine, p: Case, cfg: Config, ev: Event)
    requires Ready(e.c, p) && KnownNames(p, ev.kind) && cfg.ttl > 0.0 && ev.kind.Admit? && Admits(e, p, cfg, ev)
    requires Good(e, cfg, ev.time) && Repairable(e.c, cfg) && NoneMissed(e.c, ev.time)
    ensures var r := Admission(e, p, cfg, ev);
            Good(r, cfg, ev.time) && Repairable(r.c, cfg) && NoneMissed(r.c, ev.time)
  {
    hide Repairable;
    var s := ev.kind.state;
    var produced := e.(c := e.c.(truth := e.c.truth[s := e.c.truth[s].(produced := true)]));
    ProducingKeepsGood(e, cfg, ev.time, s);
    AdmissionKeepsRepairable(produced.c, cfg, s, NewResident(p, cfg, ev));
  }

  lemma TurnedDownIsNoted(e: Engine, p: Case, cfg: Config, ev: Event)
    requires Ready(e.c, p) && KnownNames(p, ev.kind) && ev.kind.Admit? && !Admits(e, p, cfg, ev)
    requires Good(e, cfg, ev.time) && Repairable(e.c, cfg) && NoneMissed(e.c, ev.time)
    ensures var r := Admission(e, p, cfg, ev);
            && (r.failed <==> Bytes(e.c) > cfg.capacity)
            && (!r.failed ==> Good(r, cfg, ev.time) && Repairable(r.c, cfg) && NoneMissed(r.c, ev.time))
  {
    hide Judge;
    var s := ev.kind.state;
    ProducingKeepsGood(e, cfg, ev.time, s);
  }

  lemma ProducingKeepsGood(e: Engine, cfg: Config, now: real, s: Id)
    requires s in e.c.truth && Good(e, cfg, now) && Repairable(e.c, cfg)
    ensures var r := e.(c := e.c.(truth := e.c.truth[s := e.c.truth[s].(produced := true)]));
            Good(r, cfg, now) && Repairable(r.c, cfg) && ActiveResidents(r.c) == ActiveResidents(e.c)
  {
    assert ActiveResidents(e.c.(truth := e.c.truth[s := e.c.truth[s].(produced := true)])) == ActiveResidents(e.c);
  }

  // ---------- enforcement ----------

  /** Evicting down from a repairable cache ends within capacity without raising. */
  lemma {:induction false} EvictDownFits(e: Engine, cfg: Config, now: real)
    requires e.c.resident.Keys <= e.c.truth.Keys && Regular(cfg.host) && cfg.policy != SessionPinning
    requires Good(e, cfg, now) && Repairable(e.c, cfg)
    ensures var r := EvictDown(e, cfg, now).e; Good(r, cfg, now) && Fits(r, cfg)
    decreases |e.c.resident|
  {
    hide Good;
    if Bytes(e.c) > cfg.capacity {
      CandidateExists(e.c, cfg);
      var v := Victim(e.c, cfg);
      var next := Drop(e, v, now);
      DropKeepsGood(e, cfg, v, now);
      assert ActiveResidents(next.c) == ActiveResidents(e.c) || cfg.policy != LifecycleB4;
      EvictDownFits(next, cfg, now);
    }
  }

  lemma CandidateExists(c: Cache, cfg: Config)
    requires Bytes(c) > cfg.capacity && cfg.policy != SessionPinning && Repairable(c, cfg)
    ensures Candidates(c, cfg) != {}
  {
    if cfg.policy == LifecycleB4 && Candidates(c, cfg) == {} {
      forall s | s in c.resident ensures s in ActiveResidents(c) {
        assert s !in Candidates(c, cfg);
      }
      SubsetSmaller(c.resident.Keys, ActiveResidents(c));
    }
    assert c.resident.Keys != {};
  }

  lemma {:induction false} NoteAllKeepsGood(e: Engine, cfg: Config, ids: seq<Id>, now: real, kind: AuditKind)
    requires Good(e, cfg, now) && Fits(e, cfg)
    ensures Good(NoteAll(e, cfg, ids, now, kind), cfg, now)
  {
    hide Good;
    if ids != [] {
      NoteAllKeepsGood(e, cfg, ids[..|ids| - 1], now, kind);
      NoteKeepsGood(NoteAll(e, cfg, ids[..|ids| - 1], now, kind), cfg, now, kind, Some(ids[|ids| - 1]));
    }
  }

  lemma {:induction false} NoteAdmissionsKeepsGood(e: Engine, cfg: Config, ids: seq<Id>, now: real)
    requires Good(e, cfg, now) && Fits(e, cfg)
    ensures Good(NoteAdmissions(e, cfg, ids, now), cfg, now)
  {
    hide Good, Explained;
    if ids != [] {
      var before, s := NoteAdmissions(e, cfg, ids[..|ids| - 1], now), ids[|ids| - 1];
      NoteAdmissionsKeepsGood(e, cfg, ids[..|ids| - 1], now);
      NoteKeepsGood(before, cfg, now, NoteAdmitted, Some(s));
      NoteKeepsGood(before, cfg, now, NoteSkipped, Some(s));
    }
  }

  lemma EnforceKeepsGood(e: Engine, cfg: Config, now: real)
    requires e.c.resident.Keys <= e.c.truth.Keys && Regular(cfg.host)
    requires Good(e, cfg, now) && Repairable(e.c, cfg) && NoneMissed(e.c, now)
    ensures var r := Enforce(e, cfg, now); Good(r, cfg, now) && Fits(r, cfg) && NoneMissed(r.c, now)
  {
    hide Good, EvictDown;
    var shrunk := Shrunk(e, cfg, now);
    if cfg.policy != SessionPinning {
      EvictDownFits(e, cfg, now);
    }
    assert Good(shrunk.e, cfg, now) && Fits(shrunk.e, cfg);
    NoteAllKeepsGood(shrunk.e, cfg, shrunk.evicted, now, NoteEvicted);
    NoteAdmissionsKeepsGood(NoteAll(shrunk.e, cfg, shrunk.evicted, now, NoteEvicted), cfg, e.admitted, now);
  }
}
