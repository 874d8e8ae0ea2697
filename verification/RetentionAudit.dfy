/**
 The audit trail accounts for the run it records: hits, rejections, opportunities, the capacity outcome and the
 largest resident size can all be recovered from its records. A State larger than the whole cache leaves no trace
 but the records of its admissions and reuses.
 */
module RetentionAudit {
  import opened Entities
  import opened Sorting
  import opened RetentionModel
  import opened RetentionRuns

  function Count(audit: seq<Record>, kind: AuditKind): nat {
    if audit == [] then 0 else Count(audit[..|audit| - 1], kind) + if audit[|audit| - 1].kind == kind then 1 else 0
  }

  lemma CountOneMore(audit: seq<Record>, r: Record, kind: AuditKind)
    ensures Count(audit + [r], kind) == Count(audit, kind) + if r.kind == kind then 1 else 0
  {
    assert (audit + [r])[..|audit|] == audit;
  }

  /** The counters of a run are numbers of records. */
  predicate Accounts(e: Engine) {
    && e.c.hits == Count(e.audit, NoteHit)
    && e.c.rejections == Count(e.audit, NoteReject)
    && e.c.opportunities == Count(e.audit, NoteHit) + Count(e.audit, NoteMiss) + Count(e.audit, NoteReject)
    && (e.c.infeasible <==> Count(e.audit, NoteInfeasible) > 0)
  }

  /** The recorded sizes are those of the recorded residents, and the maximum is the largest of them. */
  ghost predicate Peaks(e: Engine) {
    && (forall r :: r in e.audit ==> r.bytes == |r.resident| * STATE_BYTES && r.bytes <= e.maxBytes)
    && (e.maxBytes == 0 || exists r :: r in e.audit && r.bytes == e.maxBytes)
  }

  ghost predicate Ledger(e: Engine) {
    Accounts(e) && Peaks(e)
  }

  /** Nothing that a ledger speaks of differs. */
  predicate SameBooks(e: Engine, d: Engine) {
    && d.audit == e.audit && d.maxBytes == e.maxBytes && d.c.infeasible == e.c.infeasible
    && d.c.hits == e.c.hits && d.c.rejections == e.c.rejections && d.c.opportunities == e.c.opportunities
  }

  lemma LedgerOfTheSame(e: Engine, d: Engine)
    requires SameBooks(e, d) && Ledger(e)
    ensures Ledger(d)
  {
    hide Count;
  }

  lemma PeaksOfTheSame(e: Engine, d: Engine)
    requires Peaks(e) && d.audit == e.audit && d.maxBytes == e.maxBytes
    ensures Peaks(d)
  {
  }

  /** What one record adds to the counts. */
  lemma Noted(e: Engine, cfg: Config, now: real, kind: AuditKind, state: Option<Id>, k: AuditKind)
    ensures Count(Note(e, cfg, now, kind, state).audit, k) == Count(e.audit, k) + if kind == k then 1 else 0
  {
    var r := Record(now, kind, state, e.c.resident.Keys, Bytes(e.c), e.c.useful, e.c.wasted, e.c.infeasible);
    CountOneMore(e.audit, r, k);
  }

  lemma NotePeaks(e: Engine, cfg: Config, now: real, kind: AuditKind, state: Option<Id>)
    requires Peaks(e)
    ensures Peaks(Note(e, cfg, now, kind, state))
  {
    var d := Note(e, cfg, now, kind, state);
    var last := d.audit[|e.audit|];
    assert d.audit == e.audit + [last] && last in d.audit;
    assert last.bytes == |last.resident| * STATE_BYTES;
    if d.maxBytes == e.maxBytes && e.maxBytes != 0 {
      var r :| r in e.audit && r.bytes == e.maxBytes;
      assert r in d.audit;
    }
  }

  predicate Neutral(kind: AuditKind) {
    kind !in {NoteHit, NoteMiss, NoteReject, NoteInfeasible}
  }

  lemma NoteKeepsLedger(e: Engine, cfg: Config, now: real, kind: AuditKind, state: Option<Id>)
    requires Ledger(e) && Neutral(kind)
    ensures Ledger(Note(e, cfg, now, kind, state))
  {
    hide Peaks, Count, Bytes, Note;
    NotePeaks(e, cfg, now, kind, state);
    Noted(e, cfg, now, kind, state, NoteHit);
    Noted(e, cfg, now, kind, state, NoteMiss);
    Noted(e, cfg, now, kind, state, NoteReject);
    Noted(e, cfg, now, kind, state, NoteInfeasible);
  }

  lemma MarkKeepsLedger(e: Engine, cfg: Config, now: real, state: Option<Id>)
    requires Ledger(e)
    ensures Ledger(MarkInfeasible(e, cfg, now, state))
  {
    var marked := e.(c := e.c.(infeasible := true));
    hide Peaks, Count, Bytes;
    PeaksOfTheSame(e, marked);
    NotePeaks(marked, cfg, now, NoteInfeasible, state);
    Noted(marked, cfg, now, NoteInfeasible, state, NoteHit);
    Noted(marked, cfg, now, NoteInfeasible, state, NoteMiss);
    Noted(marked, cfg, now, NoteInfeasible, state, NoteReject);
    Noted(marked, cfg, now, NoteInfeasible, state, NoteInfeasible);
  }

  /** A reuse and the one record it leaves. */
  lemma ReuseKeepsLedger(e: Engine, cfg: Config, s: Id, valid: bool, now: real)
    requires Ledger(e) && s in e.c.truth
    ensures Ledger(Reused(e, cfg, s, valid, now))
  {
    hide Note, Ledger, Cost, Neutral;
    var seen := e.(c := e.c.(opportunities := e.c.opportunities + 1));
    if !(valid && e.c.truth[s].valid) {
      CountedKeepsLedger(e, seen.(c := seen.c.(rejections := seen.c.rejections + 1)), cfg, now, NoteReject, s);
    } else if s !in e.c.resident {
      CountedKeepsLedger(e, seen, cfg, now, NoteMiss, s);
    } else {
      CountedKeepsLedger(e, Touch(seen.(c := seen.c.(hits := seen.c.hits + 1)), s, now), cfg, now, NoteHit, s);
    }
  }

  lemma CountedKeepsLedger(e: Engine, d: Engine, cfg: Config, now: real, kind: AuditKind, s: Id)
    requires Ledger(e) && d.audit == e.audit && d.maxBytes == e.maxBytes && d.c.infeasible == e.c.infeasible
    requires kind in {NoteHit, NoteMiss, NoteReject} && d.c.opportunities == e.c.opportunities + 1
    requires d.c.hits == e.c.hits + (if kind == NoteHit then 1 else 0)
    requires d.c.rejections == e.c.rejections + (if kind == NoteReject then 1 else 0)
    ensures Ledger(Note(d, cfg, now, kind, Some(s)))
  {
    PeaksOfTheSame(e, d);
    hide Peaks, Count, Bytes;
    NotePeaks(d, cfg, now, kind, Some(s));
    Noted(d, cfg, now, kind, Some(s), NoteHit);
    Noted(d, cfg, now, kind, Some(s), NoteMiss);
    Noted(d, cfg, now, kind, Some(s), NoteReject);
    Noted(d, cfg, now, kind, Some(s), NoteInfeasible);
  }

  lemma TruthKeepsLedger(e: Engine, cfg: Config, ev: Event)
    requires Ledger(e) && (ev.kind.Invalidate? || ev.kind.Dependents? ==> ev.kind.state in e.c.truth)
    ensures ev.kind.Invalidate? ==> Ledger(Invalidated(e, cfg, ev.kind.state, ev.time))
    ensures ev.kind.Dependents? ==>
        Ledger(Relabelled(e, cfg, ev.kind.state, DeriveLifecycle(ev.kind.lifecycles), ev.time))
    ensures ev.kind.SessionStatus? ==> Ledger(SessionSet(e, cfg, ev.kind.session, ev.kind.live, ev.time))
  {
    hide Ledger, Note;
    match ev.kind
    case Invalidate(s) =>
      var marked := e.(c := e.c.(truth := e.c.truth[s := e.c.truth[s].(valid := false)]));
      var left := if s in e.c.resident then Drop(marked, s, ev.time) else marked;
      LedgerOfTheSame(e, left);
      NoteKeepsLedger(left, cfg, ev.time, NoteInvalidated, Some(s));
    case Dependents(s, l) =>
      var told := e.(c := e.c.(truth := e.c.truth[s := e.c.truth[s].(lifecycle := DeriveLifecycle(l))]));
      LedgerOfTheSame(e, told);
      NoteKeepsLedger(told, cfg, ev.time, NoteLifecycle, Some(s));
    case SessionStatus(s, live) =>
      var told := e.(c := e.c.(sessions := e.c.sessions[s := live]));
      LedgerOfTheSame(e, told);
      NoteKeepsLedger(told, cfg, ev.time, NoteSession, None);
    case _ =>
  }

  lemma AdmissionKeepsLedger(e: Engine, p: Case, cfg: Config, ev: Event)
    requires Ledger(e) && ev.kind.Admit? && ev.kind.state in p.states && ev.kind.state in e.c.truth
    requires p.states[ev.kind.state].session in e.c.sessions
    ensures Ledger(Admission(e, p, cfg, ev))
  {
    hide Ledger, Note, MarkInfeasible, NewResident, Judge;
    var s := ev.kind.state;
    var produced := e.(c := e.c.(truth := e.c.truth[s := e.c.truth[s].(produced := true)]));
    LedgerOfTheSame(e, produced);
    NoteKeepsLedger(produced, cfg, ev.time, NoteSkipped, Some(s));
    MarkKeepsLedger(produced, cfg, ev.time, Some(s));
    LedgerOfTheSame(e, Entered(produced, p, cfg, ev));
  }

  function Entered(e: Engine, p: Case, cfg: Config, ev: Event): Engine
    requires ev.kind.Admit?
  {
    var s := ev.kind.state;
    e.(c := e.c.(resident := e.c.resident[s := NewResident(p, cfg, ev)]), admitted := e.admitted + [s])
  }

  lemma {:induction false} PassKeepsLedger(e: Engine, p: Case, cfg: Config, pass: Pass, q: seq<Event>)
    requires Ready(e.c, p) && Ledger(e) && forall i :: 0 <= i < |q| ==> KnownNames(p, q[i].kind)
    ensures Ledger(PassOver(e, p, cfg, pass, q))
  {
    hide PassStep, Ready, KnownNames, Ledger;
    if q != [] {
      PassKeepsLedger(e, p, cfg, pass, q[..|q| - 1]);
      StepKeepsLedger(PassOver(e, p, cfg, pass, q[..|q| - 1]), p, cfg, pass, q[|q| - 1]);
    }
  }

  lemma StepKeepsLedger(e: Engine, p: Case, cfg: Config, pass: Pass, ev: Event)
    requires Ready(e.c, p) && Ledger(e) && KnownNames(p, ev.kind)
    ensures Ledger(PassStep(e, p, cfg, pass, ev))
  {
    hide Ledger, Invalidated, Relabelled, SessionSet, Reused, Admission;
    TruthKeepsLedger(e, cfg, ev);
    if ev.kind.Reuse? {
      ReuseKeepsLedger(e, cfg, ev.kind.state, ev.kind.semanticValid, ev.time);
    } else if ev.kind.Admit? {
      AdmissionKeepsLedger(e, p, cfg, ev);
    }
  }

  lemma {:induction false} ReleasesKeepLedger(e: Engine, cfg: Config, ids: seq<Id>, now: real, kind: AuditKind)
    requires Ledger(e) && Neutral(kind) && (forall i :: 0 <= i < |ids| ==> ids[i] in e.c.resident)
    requires forall i, j :: 0 <= i < j < |ids| ==> ids[i] != ids[j]
    ensures Ledger(ReleaseAll(e, cfg, ids, now, kind))
  {
    hide Ledger, Note, Neutral;
    if ids != [] {
      var n := |ids| - 1;
      ReleasesKeepLedger(e, cfg, ids[..n], now, kind);
      var before := ReleaseAll(e, cfg, ids[..n], now, kind);
      LastRemains(e.c.resident, ids);
      var left := Drop(before, ids[n], now);
      LedgerOfTheSame(before, left);
      NoteKeepsLedger(left, cfg, now, kind, Some(ids[n]));
    }
  }

  lemma PoliciesKeepLedger(e: Engine, p: Case, cfg: Config, now: real)
    requires Ledger(e) && Regular(cfg.host)
    ensures Ledger(PolicyReleases(e, p, cfg, now)) && Ledger(TtlExpiries(e, cfg, now))
  {
    hide Ledger, Releasable, Expired, ReleaseAll, Regular;
    DueAreHeld(e.c, p, cfg, now);
    SortedNamesIndexed(Releasable(e.c, p, cfg), cfg.host);
    ReleasesKeepLedger(e, cfg, SortedNames(Releasable(e.c, p, cfg), cfg.host), now, NoteReleased);
    SortedNamesIndexed(Expired(e.c, cfg, now), cfg.host);
    var out := ReleaseAll(e, cfg, SortedNames(Expired(e.c, cfg, now), cfg.host), now, NoteExpired);
    ReleasesKeepLedger(e, cfg, SortedNames(Expired(e.c, cfg, now), cfg.host), now, NoteExpired);
    LedgerOfTheSame(out, TtlExpiries(e, cfg, now));
  }

  lemma DueAreHeld(c: Cache, p: Case, cfg: Config, now: real)
    ensures Releasable(c, p, cfg) <= c.resident.Keys && Expired(c, cfg, now) <= c.resident.Keys
  {
  }

  lemma {:induction false} NotesKeepLedger(e: Engine, cfg: Config, ids: seq<Id>, now: real)
    requires Ledger(e)
    ensures Ledger(NoteAll(e, cfg, ids, now, NoteEvicted)) && Ledger(NoteAdmissions(e, cfg, ids, now))
  {
    hide Ledger, Note, Explained;
    if ids != [] {
      var n, s := |ids| - 1, Some(ids[|ids| - 1]);
      NotesKeepLedger(e, cfg, ids[..n], now);
      NoteKeepsLedger(NoteAll(e, cfg, ids[..n], now, NoteEvicted), cfg, now, NoteEvicted, s);
      NoteKeepsLedger(NoteAdmissions(e, cfg, ids[..n], now), cfg, now, NoteAdmitted, s);
      NoteKeepsLedger(NoteAdmissions(e, cfg, ids[..n], now), cfg, now, NoteSkipped, s);
    }
  }

  lemma {:induction false} EvictionsKeepLedger(e: Engine, cfg: Config, now: real)
    requires e.c.resident.Keys <= e.c.truth.Keys && Regular(cfg.host)
    ensures SameBooks(e, EvictDown(e, cfg, now).e)
    decreases |e.c.resident|
  {
    hide Regular;
    if !(Bytes(e.c) <= cfg.capacity || Candidates(e.c, cfg) == {}) {
      EvictionsKeepLedger(Drop(e, Victim(e.c, cfg), now), cfg, now);
    }
  }

  lemma EnforcementKeepsLedger(e: Engine, cfg: Config, now: real)
    requires e.c.resident.Keys <= e.c.truth.Keys && Regular(cfg.host) && Ledger(e)
    ensures Ledger(Enforce(e, cfg, now))
  {
    hide Ledger, EvictDown, NoteAll, NoteAdmissions, MarkInfeasible, Regular;
    var s := Shrunk(e, cfg, now);
    ShrinkingKeepsLedger(e, cfg, now);
    NotesKeepLedger(s.e, cfg, s.evicted, now);
    NotesKeepLedger(NoteAll(s.e, cfg, s.evicted, now, NoteEvicted), cfg, e.admitted, now);
  }

  lemma ShrinkingKeepsLedger(e: Engine, cfg: Config, now: real)
    requires e.c.resident.Keys <= e.c.truth.Keys && Regular(cfg.host) && Ledger(e)
    ensures Ledger(Shrunk(e, cfg, now).e)
  {
    MarkKeepsLedger(e, cfg, now, None);
    hide Ledger, EvictDown, Regular;
    var marked := MarkInfeasible(e, cfg, now, None);
    EvictionsKeepLedger(e, cfg, now);
    EvictionsKeepLedger(marked, cfg, now);
    LedgerOfTheSame(e, EvictDown(e, cfg, now).e);
    LedgerOfTheSame(marked, EvictDown(marked, cfg, now).e);
    LedgerOfTheSame(e, e.(failed := e.failed || Bytes(e.c) > cfg.capacity));
  }

  lemma InstantKeepsLedger(e: Engine, p: Case, cfg: Config, q: seq<Event>, now: real)
    requires Ready(e.c, p) && Regular(cfg.host) && Ledger(e) && forall i :: 0 <= i < |q| ==> KnownNames(p, q[i].kind)
    ensures Ledger(Instant(e, p, cfg, q, now))
  {
    hide Ledger, Ready, Regular, KnownNames, PassOver, PolicyReleases, TtlExpiries, Enforce, Note;
    PassKeepsLedger(e, p, cfg, Invalidating, q);
    PassKeepsLedger(PassOver(e, p, cfg, Invalidating, q), p, cfg, Updating, q);
    var updated := PassOver(PassOver(e, p, cfg, Invalidating, q), p, cfg, Updating, q);
    PoliciesKeepLedger(updated, p, cfg, now);
    PoliciesKeepLedger(PolicyReleases(updated, p, cfg, now), p, cfg, now);
    var released := TtlExpiries(PolicyReleases(updated, p, cfg, now), cfg, now);
    ReleasedReady(updated, p, cfg, now);
    PassKeepsLedger(released, p, cfg, Reusing, q);
    var reused := PassOver(released, p, cfg, Reusing, q);
    LedgerOfTheSame(reused, reused.(admitted := []));
    PassKeepsLedger(reused.(admitted := []), p, cfg, Admitting, q);
    var filled := BeforeEnforcement(e, p, cfg, q, now);
    ReadyInside(filled.c, p);
    EnforcementKeepsLedger(filled, cfg, now);
    NoteKeepsLedger(Enforce(filled, cfg, now), cfg, now, NoteCheckpoint, None);
  }

  lemma {:induction false} LoopKeepsLedger(l: Loop, p: Case, cfg: Config, times: seq<real>)
    requires Turn(l, p, cfg, times) && Ledger(l.e)
    ensures Ledger(RunFrom(l, p, cfg, times).e)
    decreases |times| - l.k, |l.e.c.resident.Keys|
  {
    hide Turn, Upcoming, Advance, Ledger;
    var next := Upcoming(l.e, p, cfg, times, l.k, l.last);
    if next.Some? {
      AdvanceDecreases(l, p, cfg, times);
      AdvanceKeepsLedger(l, p, cfg, times, next.value);
      LoopKeepsLedger(Advance(l, p, cfg, times, next.value), p, cfg, times);
    }
  }

  lemma AdvanceKeepsLedger(l: Loop, p: Case, cfg: Config, times: seq<real>, now: real)
    requires Turn(l, p, cfg, times) && Ledger(l.e)
    ensures Ledger(Advance(l, p, cfg, times, now).e)
  {
    TurnReady(l, p, cfg, times);
    TurnOfCase(l, p, cfg, times);
    hide Turn, Instant, Ledger, WellFormedCase, Events;
    BatchKnown(p, times, l.k, now);
    InstantKeepsLedger(l.e, p, cfg, Events(p, times, l.k, now), now);
  }

  lemma BooksOpen(p: Case, cfg: Config)
    requires WellFormedCase(p) && Configured(cfg)
    ensures Turn(FirstTurn(p), p, cfg, ExternalTimes(p.events)) && Ledger(FirstTurn(p).e)
  {
  }

  /** The audit trail of every run accounts for its counters, its outcome and its peak. */
  lemma AuditAccountsForTheRun(p: Case, cfg: Config)
    requires WellFormedCase(p) && Configured(cfg)
    ensures Accounts(RunProgram(p, cfg)) && Peaks(RunProgram(p, cfg))
  {
    hide WellFormedCase, RunFrom, ReleaseAll, Note, Upcoming;
    hide Ledger, Accounts, Peaks, FirstTurn;
    BooksOpen(p, cfg);
    LoopKeepsLedger(FirstTurn(p), p, cfg, ExternalTimes(p.events));
    var l := Looped(p, cfg);
    SortedNamesIndexed(l.e.c.resident.Keys, cfg.host);
    var checked := l.e.(failed := l.e.failed || l.k != |ExternalTimes(p.events)|);
    LedgerOfTheSame(l.e, checked);
    var names := SortedNames(l.e.c.resident.Keys, cfg.host);
    ReleasesKeepLedger(checked, cfg, names, p.end, NoteProgramEnd);
    NoteKeepsLedger(ReleaseAll(checked, cfg, names, p.end, NoteProgramEnd), cfg, p.end, NoteCheckpoint, None);
    LedgerSays(RunProgram(p, cfg));
  }

  lemma LedgerSays(e: Engine)
    requires Ledger(e)
    ensures Accounts(e) && Peaks(e)
  {
  }

  // ---------- States that do not fit ----------

  predicate Bystander(kind: AuditKind) {
    kind !in {NoteHit, NoteAdmitted, NoteEvicted, NoteReleased, NoteExpired, NoteInfeasible, NoteProgramEnd}
  }

  /** Nothing ever entered: no resident, no byte-second, no hit and no record of one. */
  ghost predicate Untouched(e: Engine) {
    && e.c.resident == map[] && e.admitted == [] && e.c.hits == 0 && !e.c.infeasible && !e.failed
    && e.c.useful == e.c.wasted == 0.0 && e.maxBytes == 0
    && forall r :: r in e.audit ==> Bystander(r.kind)
  }

  predicate TooSmall(cfg: Config) {
    cfg.policy in {Lru, FixedTtl} && cfg.capacity < STATE_BYTES
  }

  lemma NoteKeepsUntouched(e: Engine, cfg: Config, now: real, kind: AuditKind, state: Option<Id>)
    requires Untouched(e) && Bystander(kind)
    ensures Untouched(Note(e, cfg, now, kind, state))
  {
  }

  lemma StepKeepsUntouched(e: Engine, p: Case, cfg: Config, pass: Pass, ev: Event)
    requires Ready(e.c, p) && KnownNames(p, ev.kind) && Untouched(e) && TooSmall(cfg)
    ensures Untouched(PassStep(e, p, cfg, pass, ev))
  {
    hide Note, NewResident;
    if !ev.kind.SessionStatus? {
      var s, c, t := ev.kind.state, e.c, ev.time;
      var rejected := c.(opportunities := c.opportunities + 1, rejections := c.rejections + 1);
      NoteKeepsUntouched(e.(c := rejected), cfg, t, NoteReject, Some(s));
      NoteKeepsUntouched(e.(c := c.(opportunities := c.opportunities + 1)), cfg, t, NoteMiss, Some(s));
      var produced, marked := c.truth[s].(produced := true), c.truth[s].(valid := false);
      NoteKeepsUntouched(e.(c := c.(truth := c.truth[s := produced])), cfg, t, NoteSkipped, Some(s));
      NoteKeepsUntouched(e.(c := c.(truth := c.truth[s := marked])), cfg, t, NoteInvalidated, Some(s));
      if ev.kind.Dependents? {
        var told := c.truth[s].(lifecycle := DeriveLifecycle(ev.kind.lifecycles));
        NoteKeepsUntouched(e.(c := c.(truth := c.truth[s := told])), cfg, t, NoteLifecycle, Some(s));
      }
    } else {
      var told := e.(c := e.c.(sessions := e.c.sessions[ev.kind.session := ev.kind.live]));
      NoteKeepsUntouched(told, cfg, ev.time, NoteSession, None);
    }
  }

  lemma {:induction false} PassKeepsUntouched(e: Engine, p: Case, cfg: Config, pass: Pass, q: seq<Event>)
    requires Ready(e.c, p) && Untouched(e) && TooSmall(cfg) && forall i :: 0 <= i < |q| ==> KnownNames(p, q[i].kind)
    ensures Untouched(PassOver(e, p, cfg, pass, q))
  {
    hide PassStep, Ready, KnownNames, Untouched, TooSmall;
    if q != [] {
      PassKeepsUntouched(e, p, cfg, pass, q[..|q| - 1]);
      StepKeepsUntouched(PassOver(e, p, cfg, pass, q[..|q| - 1]), p, cfg, pass, q[|q| - 1]);
    }
  }

  lemma NothingToRelease(e: Engine, p: Case, cfg: Config, now: real)
    requires Untouched(e) && Regular(cfg.host)
    ensures PolicyReleases(e, p, cfg, now) == e && TtlExpiries(e, cfg, now) == e
  {
    hide Regular, Releasable, Expired;
    DueAreHeld(e.c, p, cfg, now);
    var none: set<Id> := {};
    SortedNamesIndexed(none, cfg.host);
    assert Releasable(e.c, p, cfg) == none && Expired(e.c, cfg, now) == none;
    SomeListed(SortedNames(none, cfg.host));
  }

  lemma SomeListed(ids: seq<Id>)
    ensures ids != [] ==> Listed(ids) != {}
  {
    if ids != [] {
      assert ids[0] in Listed(ids);
    }
  }

  lemma InstantKeepsUntouched(e: Engine, p: Case, cfg: Config, q: seq<Event>, now: real)
    requires Ready(e.c, p) && Regular(cfg.host) && Untouched(e) && TooSmall(cfg)
    requires forall i :: 0 <= i < |q| ==> KnownNames(p, q[i].kind)
    ensures Untouched(Instant(e, p, cfg, q, now))
  {
    hide Untouched, Ready, Regular, KnownNames, PassOver, PolicyReleases, TtlExpiries, Enforce, Note, TooSmall;
    PassKeepsUntouched(e, p, cfg, Invalidating, q);
    PassKeepsUntouched(PassOver(e, p, cfg, Invalidating, q), p, cfg, Updating, q);
    var updated := PassOver(PassOver(e, p, cfg, Invalidating, q), p, cfg, Updating, q);
    NothingToRelease(updated, p, cfg, now);
    PassKeepsUntouched(updated, p, cfg, Reusing, q);
    var reused := PassOver(updated, p, cfg, Reusing, q);
    NoneAdmitted(reused);
    PassKeepsUntouched(reused, p, cfg, Admitting, q);
    var filled := BeforeEnforcement(e, p, cfg, q, now);
    ReadyInside(filled.c, p);
    NothingToEnforce(filled, cfg, now);
    NoteKeepsUntouched(filled, cfg, now, NoteCheckpoint, None);
  }

  lemma NoneAdmitted(e: Engine)
    requires Untouched(e)
    ensures e.(admitted := []) == e
  {
  }

  lemma NothingToEnforce(e: Engine, cfg: Config, now: real)
    requires e.c.resident.Keys <= e.c.truth.Keys && Regular(cfg.host) && Untouched(e) && TooSmall(cfg)
    ensures Enforce(e, cfg, now) == e
  {
    hide Regular;
  }

  lemma {:induction false} LoopKeepsUntouched(l: Loop, p: Case, cfg: Config, times: seq<real>)
    requires Turn(l, p, cfg, times) && Untouched(l.e) && TooSmall(cfg)
    ensures Untouched(RunFrom(l, p, cfg, times).e)
    decreases |times| - l.k, |l.e.c.resident.Keys|
  {
    hide Turn, Upcoming, Advance, Untouched, TooSmall;
    var next := Upcoming(l.e, p, cfg, times, l.k, l.last);
    if next.Some? {
      AdvanceDecreases(l, p, cfg, times);
      AdvanceKeepsUntouched(l, p, cfg, times, next.value);
      LoopKeepsUntouched(Advance(l, p, cfg, times, next.value), p, cfg, times);
    }
  }

  lemma AdvanceKeepsUntouched(l: Loop, p: Case, cfg: Config, times: seq<real>, now: real)
    requires Turn(l, p, cfg, times) && Untouched(l.e) && TooSmall(cfg)
    ensures Untouched(Advance(l, p, cfg, times, now).e)
  {
    TurnReady(l, p, cfg, times);
    TurnOfCase(l, p, cfg, times);
    hide Turn, Instant, Untouched, TooSmall, WellFormedCase, Events;
    BatchKnown(p, times, l.k, now);
    InstantKeepsUntouched(l.e, p, cfg, Events(p, times, l.k, now), now);
  }

  lemma StartsUntouched(p: Case)
    ensures Untouched(FirstTurn(p).e)
  {
  }

  /** Under LRU and FIXED_TTL a State larger than the capacity is turned away and never evicts anything. */
  lemma OversizedNeverEnters(p: Case, cfg: Config)
    requires WellFormedCase(p) && Configured(cfg) && cfg.policy in {Lru, FixedTtl} && cfg.capacity < STATE_BYTES
    ensures Untouched(Looped(p, cfg).e)
  {
    hide WellFormedCase, RunFrom, Untouched, FirstTurn, Ledger;
    BooksOpen(p, cfg);
    StartsUntouched(p);
    LoopKeepsUntouched(FirstTurn(p), p, cfg, ExternalTimes(p.events));
  }
}
