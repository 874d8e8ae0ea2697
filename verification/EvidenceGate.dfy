/**
 The evidence gate: which Evidence an action may rely on, when structured claims contradict each
 other, and how reconciliation answers. The core consults it before it finalizes a request,
 consumes a State or commits a migration.
 */
module EvidenceGate {
  import opened Entities
  import opened Sorting

  datatype EvidenceAction = Finalize | ConsumeState | CommitMigrationAction | RankEndpoint | EstimateReuse

  type Scope = set<(string, string)>

  function AuthorityRank(a: EvidenceAuthority): nat {
    match a
    case Estimated => 1
    case Derived => 2
    case ExactObservation => 3
    case Authoritative => 4
  }

  function RequiredAuthority(action: EvidenceAction): EvidenceAuthority {
    if CorrectnessSensitive(action) then ExactObservation else Estimated
  }

  predicate CorrectnessSensitive(action: EvidenceAction) {
    action == Finalize || action == ConsumeState || action == CommitMigrationAction
  }

  /** Valid, authoritative enough, unexpired and young enough. */
  predicate Eligible(e: Evidence, action: EvidenceAction, now: real, maxAge: Option<real>) {
    && e.status == EvidenceValid
    && AuthorityRank(RequiredAuthority(action)) <= AuthorityRank(e.authority)
    && (e.validUntil.Some? ==> now <= e.validUntil.value)
    && (maxAge.Some? ==> now - e.observedAt <= maxAge.value)
  }

  /** Two pieces of Evidence that say different things about one claim key. */
  predicate Contradict(d: Evidence, e: Evidence) {
    d.claimKey.Some? && d.claimKey == e.claimKey && d.claimValue != e.claimValue
  }

  ghost predicate Conflicting(evs: set<Evidence>, action: EvidenceAction, now: real, maxAge: Option<real>) {
    exists d, e ::
      d in evs && e in evs && Eligible(d, action, now, maxAge) && Eligible(e, action, now, maxAge) && Contradict(d, e)
  }

  ghost predicate SomeAmbiguous(evs: set<Evidence>) {
    exists e :: e in evs && e.status == Ambiguous
  }

  ghost predicate SomeGood(evs: set<Evidence>, action: EvidenceAction, now: real, scope: Scope, maxAge: Option<real>) {
    exists e :: e in evs && Eligible(e, action, now, maxAge) && scope <= e.scope
  }

  /** What `require_evidence` accepts, as a property of the set of Evidence offered. */
  ghost predicate Sufficient(evs: set<Evidence>, action: EvidenceAction, now: real, scope: Scope, maxAge: Option<real>)
  {
    && (CorrectnessSensitive(action) ==> !SomeAmbiguous(evs) && !Conflicting(evs, action, now, maxAge))
    && SomeGood(evs, action, now, scope, maxAge)
  }

  function IdSet(ids: seq<Id>): set<Id> {
    set i | i in ids
  }

  /** The recorded Evidence among the identifiers; unknown identifiers are skipped. */
  ghost function Offered(evidence: map<Id, Evidence>, ids: set<Id>): set<Evidence> {
    set i | i in ids && i in evidence :: evidence[i]
  }

  function Filter(evs: seq<Evidence>, action: EvidenceAction, now: real, scope: Scope,
      maxAge: Option<real>): seq<Evidence>
  {
    if evs == [] then [] else
      var rest := Filter(evs[..|evs| - 1], action, now, scope, maxAge);
      var e := evs[|evs| - 1];
      if Eligible(e, action, now, maxAge) && scope <= e.scope then rest + [e] else rest
  }

  lemma {:induction false} FilterSelects(evs: seq<Evidence>, action: EvidenceAction, now: real, scope: Scope,
      maxAge: Option<real>)
    ensures forall e :: e in Filter(evs, action, now, scope, maxAge) <==>
                        e in evs && Eligible(e, action, now, maxAge) && scope <= e.scope
  {
    if evs != [] {
      FilterSelects(evs[..|evs| - 1], action, now, scope, maxAge);
      assert evs == evs[..|evs| - 1] + [evs[|evs| - 1]];
    }
  }

  /** `[evidence[eid] for eid in ids if eid in evidence]`. */
  method Lookup(evidence: map<Id, Evidence>, ids: seq<Id>) returns (evs: seq<Evidence>)
    ensures (set e | e in evs) == Offered(evidence, IdSet(ids))
  {
    evs := [];
    for k := 0 to |ids|
      invariant forall e :: e in evs <==> exists j :: 0 <= j < k && ids[j] in evidence && evidence[ids[j]] == e
    {
      if ids[k] in evidence {
        evs := evs + [evidence[ids[k]]];
      }
    }
  }

  /** `m` maps each claim key of the eligible Evidence seen so far to its one value. */
  ghost predicate Grouped(m: map<string, set<string>>, seen: set<Evidence>, action: EvidenceAction, now: real,
      maxAge: Option<real>)
  {
    && (forall key :: key in m ==> exists d :: d in seen && Claims(d, action, now, maxAge, key, m[key]))
    && (forall d :: d in seen && d.claimKey.Some? && Eligible(d, action, now, maxAge) ==>
          d.claimKey.value in m && m[d.claimKey.value] == {d.claimValue.value})
  }

  ghost predicate Claims(e: Evidence, action: EvidenceAction, now: real, maxAge: Option<real>, key: string,
      values: set<string>)
  {
    Eligible(e, action, now, maxAge) && e.claimKey == Some(key) && values == {e.claimValue.value}
  }

  lemma GroupedAgree(m: map<string, set<string>>, seen: set<Evidence>, action: EvidenceAction, now: real,
      maxAge: Option<real>)
    requires Grouped(m, seen, action, now, maxAge)
    ensures !Conflicting(seen, action, now, maxAge)
  {
  }

  lemma GroupedAdd(m: map<string, set<string>>, seen: set<Evidence>, e: Evidence, action: EvidenceAction, now: real,
      maxAge: Option<real>)
    requires Grouped(m, seen, action, now, maxAge)
    requires e.claimKey.Some? && Eligible(e, action, now, maxAge)
    requires e.claimKey.value in m ==> m[e.claimKey.value] <= {e.claimValue.value}
    ensures Grouped(m[e.claimKey.value := {e.claimValue.value}], seen + {e}, action, now, maxAge)
  {
    var m' := m[e.claimKey.value := {e.claimValue.value}];
    forall key | key in m'
      ensures exists d :: d in seen + {e} && Claims(d, action, now, maxAge, key, m'[key])
    {
      if key == e.claimKey.value {
        assert Claims(e, action, now, maxAge, key, m'[key]);
      } else {
        var d :| d in seen && Claims(d, action, now, maxAge, key, m[key]);
        assert d in seen + {e};
      }
    }
  }

  /** The conflict loop: eligible claim values grouped by key, stopping at the second value. */
  method HasConflictingStructuredClaims(action: EvidenceAction, evs: seq<Evidence>, now: real, maxAge: Option<real>)
      returns (conflict: bool)
    ensures conflict <==> Conflicting((set e | e in evs), action, now, maxAge)
  {
    hide Eligible, Grouped, Conflicting;
    StartsGrouped(action, now, maxAge);
    var valuesByKey: map<string, set<string>> := map[];
    ghost var seen: set<Evidence> := {};
    for k := 0 to |evs|
      invariant seen == set e | e in evs[..k]
      invariant Grouped(valuesByKey, seen, action, now, maxAge)
    {
      var e := evs[k];
      assert evs[..k + 1] == evs[..k] + [e];
      GroupedSkip(valuesByKey, seen, e, action, now, maxAge);
      if e.claimKey.Some? && Eligible(e, action, now, maxAge) {
        var key, value := e.claimKey.value, e.claimValue.value;
        var values := (if key in valuesByKey then valuesByKey[key] else {}) + {value};
        if |values| > 1 {
          SecondValueConflicts(valuesByKey, seen, e, action, now, maxAge);
          assert seen + {e} <= set d | d in evs;
          ConflictGrows(seen + {e}, (set d | d in evs), action, now, maxAge);
          return true;
        }
        OnlyValue(values, value);
        SoleValue(valuesByKey, key, value);
        GroupedAdd(valuesByKey, seen, e, action, now, maxAge);
        valuesByKey := valuesByKey[key := values];
      }
      seen := seen + {e};
    }
    assert evs[..|evs|] == evs;
    GroupedAgree(valuesByKey, seen, action, now, maxAge);
    conflict := false;
  }

  lemma SoleValue(m: map<string, set<string>>, key: string, value: string)
    requires |(if key in m then m[key] else {}) + {value}| <= 1
    ensures key in m ==> m[key] <= {value}
  {
    if key in m {
      OnlyValue(m[key] + {value}, value);
    }
  }

  lemma StartsGrouped(action: EvidenceAction, now: real, maxAge: Option<real>)
    ensures Grouped(map[], {}, action, now, maxAge)
  {
  }

  /** A piece of Evidence without an eligible claim leaves the groups alone. */
  lemma GroupedSkip(m: map<string, set<string>>, seen: set<Evidence>, e: Evidence, action: EvidenceAction, now: real,
      maxAge: Option<real>)
    requires Grouped(m, seen, action, now, maxAge)
    ensures !(e.claimKey.Some? && Eligible(e, action, now, maxAge)) ==> Grouped(m, seen + {e}, action, now, maxAge)
  {
  }

  lemma ConflictGrows(s: set<Evidence>, t: set<Evidence>, action: EvidenceAction, now: real, maxAge: Option<real>)
    requires s <= t && Conflicting(s, action, now, maxAge)
    ensures Conflicting(t, action, now, maxAge)
  {
  }

  lemma SecondValueConflicts(m: map<string, set<string>>, seen: set<Evidence>, e: Evidence, action: EvidenceAction,
      now: real, maxAge: Option<real>)
    requires Grouped(m, seen, action, now, maxAge)
    requires e.claimKey.Some? && Eligible(e, action, now, maxAge)
    requires |(if e.claimKey.value in m then m[e.claimKey.value] else {}) + {e.claimValue.value}| > 1
    ensures Conflicting(seen + {e}, action, now, maxAge)
  {
    var key := e.claimKey.value;
    assert (if key in m then m[key] else {}) + {e.claimValue.value} != {e.claimValue.value};
    var d :| d in seen && Claims(d, action, now, maxAge, key, m[key]);
    assert Contradict(d, e);
  }

  lemma OnlyValue(s: set<string>, v: string)
    requires |s| <= 1 && v in s
    ensures s == {v}
  {
    if s != {v} {
      var w :| w in s && w != v;
      SubsetSmaller({v, w}, s);
    }
  }

  method RequireEvidence(evidence: map<Id, Evidence>, action: EvidenceAction, ids: seq<Id>, now: real,
                         scope: Scope, maxAge: Option<real>)
      returns (r: Result<seq<Evidence>>)
    ensures r.Ok? <==> Sufficient(Offered(evidence, IdSet(ids)), action, now, scope, maxAge)
    ensures r.Ok? ==> r.value != [] && forall e :: e in r.value <==>
              e in Offered(evidence, IdSet(ids)) && Eligible(e, action, now, maxAge) && scope <= e.scope
    ensures r.Err? ==> r.error == InsufficientEvidence
  {
    var evs := Lookup(evidence, ids);
    ghost var offered := set e | e in evs;
    if CorrectnessSensitive(action) {
      var k := 0;
      while k < |evs|
        invariant 0 <= k <= |evs| && forall j :: 0 <= j < k ==> evs[j].status != Ambiguous
      {
        if evs[k].status == Ambiguous {
          assert evs[k] in offered;
          return Err(InsufficientEvidence);
        }
        k := k + 1;
      }
      var conflict := HasConflictingStructuredClaims(action, evs, now, maxAge);
      if conflict {
        return Err(InsufficientEvidence);
      }
    }
    var good: seq<Evidence> := [];
    for k := 0 to |evs|
      invariant good == Filter(evs[..k], action, now, scope, maxAge)
    {
      assert evs[..k + 1][..k] == evs[..k];
      if Eligible(evs[k], action, now, maxAge) && scope <= evs[k].scope {
        good := good + [evs[k]];
      }
    }
    assert evs[..|evs|] == evs;
    FilterSelects(evs, action, now, scope, maxAge);
    if good == [] {
      return Err(InsufficientEvidence);
    }
    assert good[0] in good && good[0] in offered;
    return Ok(good);
  }

  method Reconcile(evidence: map<Id, Evidence>, action: EvidenceAction, ids: seq<Id>, now: real, scope: Scope)
      returns (r: ReconcileOutcome)
    ensures r == Reconciled(Offered(evidence, IdSet(ids)), action, now, scope)
  {
    var evs := Lookup(evidence, ids);
    for k := 0 to |evs|
      invariant forall j :: 0 <= j < k ==> evs[j].status != Ambiguous
    {
      if evs[k].status == Ambiguous {
        assert evs[k] in (set e | e in evs);
        return AmbiguousOutcome;
      }
    }
    var conflict := HasConflictingStructuredClaims(action, evs, now, None);
    if conflict {
      return AmbiguousOutcome;
    }
    var required := RequireEvidence(evidence, action, ids, now, scope, None);
    return if required.Ok? then Matched else Wait;
  }

  ghost function Reconciled(evs: set<Evidence>, action: EvidenceAction, now: real, scope: Scope): ReconcileOutcome {
    if SomeAmbiguous(evs) || Conflicting(evs, action, now, None) then AmbiguousOutcome
    else if Sufficient(evs, action, now, scope, None) then Matched
    else Wait
  }

  /** For the three correctness-sensitive actions MATCHED is exactly the gate. */
  lemma MatchedIffSufficient(evs: set<Evidence>, action: EvidenceAction, now: real, scope: Scope)
    requires CorrectnessSensitive(action)
    ensures Reconciled(evs, action, now, scope) == Matched <==> Sufficient(evs, action, now, scope, None)
  {
  }

  /**
   When the two agree, for every action: always for a correctness-sensitive one; for an advisory one unless the
   Evidence offered holds an AMBIGUOUS or contradictory item and a usable one that covers the scope.
   */
  lemma MatchedAgreesExactly(evs: set<Evidence>, action: EvidenceAction, now: real, scope: Scope)
    ensures (Reconciled(evs, action, now, scope) == Matched <==> Sufficient(evs, action, now, scope, None)) <==>
            || CorrectnessSensitive(action)
            || !(SomeAmbiguous(evs) || Conflicting(evs, action, now, None))
            || !exists e :: e in evs && Eligible(e, action, now, None) && scope <= e.scope
  {
    hide SomeAmbiguous, Conflicting, Eligible;
  }

  /** Both advisory actions pass the gate on an offer that reconciliation reports as ambiguous. */
  lemma AdvisoryGap(action: EvidenceAction)
    requires action in {RankEndpoint, EstimateReuse}
    ensures exists evs, now ::
            Sufficient(evs, action, now, {}, None) && Reconciled(evs, action, now, {}) == AmbiguousOutcome
  {
    var fine: Evidence := EvidenceRecord("e", "c", "s", Estimated, EvidenceValid, 0.0, {}, None, None, {}, None, None,
        None);
    var vague: Evidence := EvidenceRecord("f", "c", "s", Estimated, Ambiguous, 0.0, {}, None, None, {}, None, None,
        None);
    var evs := {fine, vague};
    assert fine in evs && Eligible(fine, action, 0.0, None);
    assert vague in evs && SomeAmbiguous(evs);
    assert Sufficient(evs, action, 0.0, {}, None);
  }

  /**
   What passing the gate buys a correctness-sensitive action: nothing offered is ambiguous, no two
   usable claims disagree, and some observation that is not DERIVED covers the whole scope.
   */
  lemma SufficientMeans(evs: set<Evidence>, action: EvidenceAction, now: real, scope: Scope, maxAge: Option<real>)
    requires CorrectnessSensitive(action) && Sufficient(evs, action, now, scope, maxAge)
    ensures forall e :: e in evs ==> e.status != Ambiguous
    ensures exists e ::
            && e in evs && scope <= e.scope && e.status == EvidenceValid
            && e.authority in {ExactObservation, Authoritative}
    ensures forall d, e ::
              (d in evs && e in evs && Eligible(d, action, now, maxAge) && Eligible(e, action, now, maxAge)
               && d.claimKey.Some? && d.claimKey == e.claimKey) ==> d.claimValue == e.claimValue
  {
    var e :| e in evs && Eligible(e, action, now, maxAge) && scope <= e.scope;
    assert e.authority in {ExactObservation, Authoritative};
    forall d, e | d in evs && e in evs && Eligible(d, action, now, maxAge) && Eligible(e, action, now, maxAge)
                  && d.claimKey.Some? && d.claimKey == e.claimKey
      ensures d.claimValue == e.claimValue
    {
      assert !Contradict(d, e);
    }
  }

  // ---------- the gate over the fields of the Evidence ----------

  /** What the gate asks of an offer, field by field; the action matters only through being correctness-sensitive. */
  lemma GateOverFields(evs: set<Evidence>, action: EvidenceAction, now: real, scope: Scope, maxAge: Option<real>)
    ensures var sensitive := action in {Finalize, ConsumeState, CommitMigrationAction};
            Sufficient(evs, action, now, scope, maxAge) <==>
              && (sensitive ==> forall e :: e in evs ==> e.status != Ambiguous)
              && (sensitive ==> forall d, e ::
                    (d in evs && e in evs && Usable(d, true, now, maxAge) && Usable(e, true, now, maxAge)
                     && d.claimKey.Some? && d.claimKey == e.claimKey) ==> d.claimValue == e.claimValue)
              && exists e :: e in evs && scope <= e.scope && Usable(e, sensitive, now, maxAge)
  {
    var sensitive := action in {Finalize, ConsumeState, CommitMigrationAction};
    forall e: Evidence ensures Eligible(e, action, now, maxAge) <==> Usable(e, sensitive, now, maxAge) {
    }
    hide Eligible, Usable, RequiredAuthority;
    if sensitive && forall e :: e in evs ==> e.status != Ambiguous {
      assert Conflicting(evs, action, now, maxAge) <==>
             exists d, e :: d in evs && e in evs && Usable(d, true, now, maxAge) && Usable(e, true, now, maxAge)
                            && Contradict(d, e);
    }
  }

  /** VALID, observed rather than derived or estimated if it must be, not yet expired, and not too old. */
  predicate Usable(e: Evidence, observed: bool, now: real, maxAge: Option<real>) {
    && e.status == EvidenceValid && (observed ==> e.authority == ExactObservation || e.authority == Authoritative)
    && (e.validUntil.None? || e.validUntil.value >= now)
    && (maxAge.None? || e.observedAt + maxAge.value >= now)
  }

  /** An offer whose covering items have all expired is refused, then and at every later time. */
  lemma ExpiredIsRefused(evs: set<Evidence>, action: EvidenceAction, now: real, later: real, scope: Scope,
      maxAge: Option<real>)
    requires now <= later
    requires forall e :: e in evs && scope <= e.scope ==>
               || (e.validUntil.Some? && e.validUntil.value < now)
               || (maxAge.Some? && e.observedAt + maxAge.value < now)
    ensures !Sufficient(evs, action, later, scope, maxAge)
  {
    GateOverFields(evs, action, later, scope, maxAge);
  }

  /** Waiting helps only against a contradiction: it can outlast one of the two claims. */
  lemma OnlyContradictionsPass(evs: set<Evidence>, action: EvidenceAction, now: real, later: real, scope: Scope,
      maxAge: Option<real>)
    requires now <= later
    requires Sufficient(evs, action, later, scope, maxAge) && !Sufficient(evs, action, now, scope, maxAge)
    ensures exists d, e ::
              && d in evs && e in evs && d.status == EvidenceValid && e.status == EvidenceValid
              && d.claimKey.Some? && d.claimKey == e.claimKey && d.claimValue != e.claimValue
  {
    GateOverFields(evs, action, now, scope, maxAge);
    GateOverFields(evs, action, later, scope, maxAge);
    var sensitive := action in {Finalize, ConsumeState, CommitMigrationAction};
    var e :| e in evs && scope <= e.scope && Usable(e, sensitive, later, maxAge);
    assert Usable(e, sensitive, now, maxAge);
  }

  /** Such an offer exists: the first of two contradictory claims expires. */
  lemma ContradictionOutlasted(action: EvidenceAction)
    requires action in {Finalize, ConsumeState, CommitMigrationAction}
    ensures exists evs, now, later ::
              now <= later && Sufficient(evs, action, later, {}, None) && !Sufficient(evs, action, now, {}, None)
  {
    var brief: Evidence := EvidenceRecord("e", "c", "s", Authoritative, EvidenceValid, 0.0, {}, Some(1.0), None, {},
        None, Some("k"), Some("x"));
    var lasting: Evidence := EvidenceRecord("f", "c", "s", Authoritative, EvidenceValid, 0.0, {}, None, None, {}, None,
        Some("k"), Some("y"));
    var evs := {brief, lasting};
    assert Usable(brief, true, 0.0, None) && Usable(lasting, true, 0.0, None) && !Usable(brief, true, 2.0, None);
    assert lasting in evs && Usable(lasting, true, 2.0, None);
    hide Usable, Sufficient;
    GateOverFields(evs, action, 0.0, {}, None);
    GateOverFields(evs, action, 2.0, {}, None);
  }
}
