/**
 What the oracle's acceptance means for any core at all, reached by calls or restored from a document. Each check
 is met by an account of the same entities that is written entity by entity over their fields, and the two are
 equivalent: an accepted core has all of these facts, and nothing else is needed to be accepted.
 */
module OracleFacts {
  import opened Entities
  import opened CoreSpec
  import opened Graphs
  import opened Numbering
  import opened Invariant
  import opened StateCompatibility
  import opened Oracle
  import opened OracleRuns

  // ---------- identifiers and owners ----------

  lemma IdentifiersAreUnique(c: Core)
    ensures GlobalIdentityUniqueness(c) <==> KeysMatch(c) && Identity(c)
  {
    if GlobalIdentityUniqueness(c) {
      forall i, j, k | InUse(c, i, k) && InUse(c, j, k) ensures i == j {
        OnlyInOne(c, i, j, k);
      }
    }
    if KeysMatch(c) && Identity(c) {
      IdentityCheckHolds(c);
    }
    hide Only, InUse, Identity;
  }

  lemma OnlyInOne(c: Core, i: int, j: int, k: Id)
    requires GlobalIdentityUniqueness(c) && InUse(c, i, k) && InUse(c, j, k)
    ensures i == j
  {
    hide GlobalIdentityUniqueness, Only, InUse;
    OnlyHere(c, i, k);
    OnlyExcludes(c, i, j, k);
  }

  lemma OnlyExcludes(c: Core, i: int, j: int, k: Id)
    requires Only(c, k, i) && InUse(c, j, k)
    ensures i == j
  {
  }

  lemma OnlyHere(c: Core, i: int, k: Id)
    requires GlobalIdentityUniqueness(c) && InUse(c, i, k)
    ensures Only(c, k, i)
  {
    hide Only;
  }

  /** The chain of owners of each entity up to its Program. */
  predicate SessionOwned(c: Core, s: Id) {
    s in c.sessions && c.sessions[s].programId in c.programs
  }

  predicate ContinuationOwned(c: Core, k: Id) {
    k in c.continuations && SessionOwned(c, c.continuations[k].sessionId)
  }

  predicate RequestOwned(c: Core, r: Id) {
    r in c.requests && ContinuationOwned(c, c.requests[r].continuationId)
  }

  predicate AttemptOwned(c: Core, a: Id) {
    a in c.attempts && RequestOwned(c, c.attempts[a].requestId)
  }

  predicate PhaseOwned(c: Core, p: Id) {
    p in c.phases && AttemptOwned(c, c.phases[p].attemptId)
  }

  ghost predicate OwnersKnown(c: Core) {
    && (forall s :: s in c.sessions ==> SessionOwned(c, s))
    && (forall k :: k in c.continuations ==> ContinuationOwned(c, k))
    && (forall r :: r in c.requests ==> RequestOwned(c, r))
    && (forall a :: a in c.attempts ==> AttemptOwned(c, a))
    && (forall p :: p in c.phases ==> PhaseOwned(c, p))
  }

  /** All ancestors of a continuation are known and belong to its Session. */
  ghost predicate AncestryInSession(cs: map<Id, Continuation>) {
    && (forall k, p :: k in cs && p in cs[k].parentIds ==> p in cs)
    && forall a, d :: d in cs && Reaches(Parents(cs), d, a) ==> a in cs && cs[a].sessionId == cs[d].sessionId
  }

  lemma OwnersAndAncestors(c: Core)
    ensures ParentScopes(c) <==> OwnersKnown(c) && AncestryInSession(c.continuations)
  {
    if ParentScopes(c) {
      forall a, d | d in c.continuations && Reaches(Parents(c.continuations), d, a)
        ensures a in c.continuations && c.continuations[a].sessionId == c.continuations[d].sessionId
      {
        AncestorsShareSession(c.continuations, d, a);
      }
    }
    if AncestryInSession(c.continuations) {
      forall k, p | k in c.continuations && p in c.continuations[k].parentIds
        ensures p in c.continuations && c.continuations[p].sessionId == c.continuations[k].sessionId
      {
        ReachesEdge(Parents(c.continuations), k, p);
      }
    }
    hide AncestryInSession, Reaches;
  }

  lemma AncestorsShareSession(cs: map<Id, Continuation>, d: Id, a: Id)
    requires forall k, p :: k in cs && p in cs[k].parentIds ==> p in cs && cs[p].sessionId == cs[k].sessionId
    requires d in cs && Reaches(Parents(cs), d, a)
    ensures a in cs && cs[a].sessionId == cs[d].sessionId
  {
    var inside := set k | k in cs && cs[k].sessionId == cs[d].sessionId;
    ReachesStaysIn(Parents(cs), inside, d, a);
  }

  // ---------- attempts and phases ----------

  /** An attempt is CURRENT, or COMMITTED, exactly when its request names it so. */
  ghost predicate AuthorityIsNamed(c: Core) {
    forall r :: r in c.requests ==>
      && (forall a :: c.requests[r].currentAttemptId == Some(a) <==>
            a in c.attempts && c.attempts[a].requestId == r && c.attempts[a].authorityStatus == Current)
      && (forall a :: c.requests[r].committedAttemptId == Some(a) <==>
            a in c.attempts && c.attempts[a].requestId == r && c.attempts[a].authorityStatus == Committed)
  }

  lemma AuthorityFollowsNames(c: Core)
    ensures AttemptAuthorityCheck(c) <==> AuthorityIsNamed(c)
  {
    forall r | r in c.requests
      ensures RequestAuthority(c, c.requests[r], r) <==>
                && (forall a :: c.requests[r].currentAttemptId == Some(a) <==>
                      a in c.attempts && c.attempts[a].requestId == r && c.attempts[a].authorityStatus == Current)
                && (forall a :: c.requests[r].committedAttemptId == Some(a) <==>
                      a in c.attempts && c.attempts[a].requestId == r && c.attempts[a].authorityStatus == Committed)
    {
      NamedHolders(c, r, Current, c.requests[r].currentAttemptId);
      NamedHolders(c, r, Committed, c.requests[r].committedAttemptId);
    }
    hide RequestAuthority;
  }

  lemma NamedHolders(c: Core, r: Id, authority: AttemptAuthority, named: Option<Id>)
    ensures WithAuthority(c.attempts, r, authority) == OptionSet(named) <==>
              forall a :: named == Some(a) <==>
                a in c.attempts && c.attempts[a].requestId == r && c.attempts[a].authorityStatus == authority
  {
    var holders := WithAuthority(c.attempts, r, authority);
    assert forall a :: a in OptionSet(named) <==> named == Some(a);
    assert forall a :: a in holders <==>
             a in c.attempts && c.attempts[a].requestId == r && c.attempts[a].authorityStatus == authority;
  }

  /** The members' numbers run from 1 without a gap, and no two members share one. */
  ghost predicate CountedOff(m: Numbered, owner: string) {
    && (forall k :: k in m && m[k].0 == owner ==> 1 <= m[k].1)
    && (forall k, n: int :: k in m && m[k].0 == owner && 1 <= n <= m[k].1 ==> exists j :: j in m && m[j] == (owner, n))
    && (forall j, k :: j in m && k in m && m[j].0 == owner && m[j] == m[k] ==> j == k)
  }

  lemma ContiguousIsCountedOff(m: Numbered, owner: string)
    ensures Contiguous(m, owner) <==> CountedOff(m, owner)
  {
    if Contiguous(m, owner) {
      ContiguousCountsOff(m, owner);
    }
    if CountedOff(m, owner) {
      CountedOffIsContiguous(m, owner);
    }
  }

  /** Distinct numbers between 1 and n belong to at most n keys. */
  lemma {:induction false} DistinctIsFew(m: Numbered, keys: set<string>, n: nat)
    requires keys <= m.Keys && forall k :: k in keys ==> 1 <= m[k].1 <= n
    requires forall j, k :: j in keys && k in keys && m[j].1 == m[k].1 ==> j == k
    ensures |keys| <= n
    decreases n
  {
    if n == 0 {
      assert keys == {};
    } else if k :| k in keys && m[k].1 == n {
      DistinctIsFew(m, keys - {k}, n - 1);
    } else {
      DistinctIsFew(m, keys, n - 1);
    }
  }

  ghost predicate Carried(m: Numbered, keys: set<string>, g: int) {
    exists k :: k in keys && k in m && m[k].1 == g
  }

  /** Keys that carry every number from 1 to n are at least n. */
  lemma {:induction false} CoveringIsMany(m: Numbered, keys: set<string>, n: nat)
    requires keys <= m.Keys && forall g :: 1 <= g <= n ==> Carried(m, keys, g)
    ensures n <= |keys|
    decreases n
  {
    if n > 0 {
      assert Carried(m, keys, n);
      var k :| k in keys && k in m && m[k].1 == n;
      forall g | 1 <= g <= n - 1 ensures Carried(m, keys - {k}, g) {
        assert Carried(m, keys, g);
        var j :| j in keys && j in m && m[j].1 == g;
        assert j in keys - {k};
      }
      CoveringIsMany(m, keys - {k}, n - 1);
    }
  }

  lemma ContiguousCountsOff(m: Numbered, owner: string)
    requires Contiguous(m, owner)
    ensures CountedOff(m, owner)
  {
    var members := Members(m, owner);
    forall k | k in m && m[k].0 == owner ensures 1 <= m[k].1 <= |members| {
      assert Handed(m, owner, m[k].1);
    }
    forall j, k | j in m && k in m && m[j].0 == owner && m[j] == m[k] ensures j == k {
      if j != k {
        forall g | 1 <= g <= |members| ensures Carried(m, members - {k}, g) {
          assert Handed(m, owner, g);
          var x :| x in m && m[x] == (owner, g);
          var y := if x == k then j else x;
          assert y in members - {k} && m[y].1 == g;
        }
        CoveringIsMany(m, members - {k}, |members|);
      }
    }
    forall k, n: int | k in m && m[k].0 == owner && 1 <= n <= m[k].1 ensures exists j :: j in m && m[j] == (owner, n) {
      assert Handed(m, owner, n);
    }
  }

  lemma CountedOffIsContiguous(m: Numbered, owner: string)
    requires CountedOff(m, owner)
    ensures Contiguous(m, owner)
  {
    var members := Members(m, owner);
    forall g ensures Handed(m, owner, g) <==> 1 <= g <= |members| {
      if Handed(m, owner, g) {
        var k :| k in m && m[k] == (owner, g);
        forall n | 1 <= n <= g ensures Carried(m, members, n) {
          var j :| j in m && m[j] == (owner, n);
          assert j in members;
        }
        CoveringIsMany(m, members, g);
      }
      if 1 <= g <= |members| && forall k :: k in members ==> m[k].1 < g {
        DistinctIsFew(m, members, g - 1);
      }
    }
  }

  /** Generations and ordinals, read off the attempts and the phases. */
  ghost predicate AttemptsCountedOff(c: Core) {
    forall r :: r in c.requests ==> CountedOff(AttemptNumbers(c.attempts), r)
  }

  ghost predicate PhasesCountedOff(c: Core) {
    forall a :: a in c.attempts ==> CountedOff(PhaseNumbers(c.phases), a)
  }

  lemma NumbersAreCountedOff(c: Core)
    ensures AttemptGenerations(c) <==> AttemptsCountedOff(c)
    ensures PhaseOrdering(c) <==> PhasesCountedOff(c)
  {
    hide Contiguous, CountedOff, AttemptNumbers, PhaseNumbers;
    forall r ensures Contiguous(AttemptNumbers(c.attempts), r) <==> CountedOff(AttemptNumbers(c.attempts), r) {
      ContiguousIsCountedOff(AttemptNumbers(c.attempts), r);
    }
    forall a ensures Contiguous(PhaseNumbers(c.phases), a) <==> CountedOff(PhaseNumbers(c.phases), a) {
      ContiguousIsCountedOff(PhaseNumbers(c.phases), a);
    }
  }

  // ---------- requests ----------

  /** A COMPLETED request names a SUCCEEDED attempt of its own and a terminal output of that attempt. */
  ghost predicate Finished(c: Core, q: LogicalRequest) {
    && q.currentAttemptId == None
    && exists a, o ::
         && q.committedAttemptId == Some(a) && q.authoritativeOutputId == Some(o)
         && a in c.attempts && c.attempts[a].requestId == q.id
         && c.attempts[a].executionStatus == ExecSucceeded && c.attempts[a].authorityStatus == Committed
         && o in c.outputs && c.outputs[o].terminal && c.outputs[o].attemptId == a
  }

  ghost predicate OutcomesStand(c: Core) {
    forall r :: r in c.requests ==>
      && (c.requests[r].status == RequestCompleted ==> Finished(c, c.requests[r]))
      && (c.requests[r].status == RequestFailed || c.requests[r].status == RequestCancelled ==>
            c.requests[r] == c.requests[r].(currentAttemptId := None, committedAttemptId := None,
                                            authoritativeOutputId := None))
  }

  lemma OutcomesAreBacked(c: Core)
    ensures RequestCommitConsistency(c) <==> OutcomesStand(c)
  {
    forall r | r in c.requests && c.requests[r].status == RequestCompleted
      ensures CommitConsistent(c, c.requests[r]) <==> Finished(c, c.requests[r])
    {
    }
    hide Finished;
  }

  // ---------- acyclicity ----------

  /** No continuation is its own proper ancestor. */
  ghost predicate NoOwnAncestor(cs: map<Id, Continuation>) {
    forall k, p :: k in cs && p in cs[k].parentIds ==> !Reaches(Parents(cs), p, k)
  }

  lemma NoneIsItsOwnAncestor(c: Core)
    requires ParentScopes(c)
    ensures ContinuationDags(c) <==> NoOwnAncestor(c.continuations)
  {
    if ContinuationDags(c) {
      AcyclicSessions(c);
    }
    if NoOwnAncestor(c.continuations) {
      SessionsHaveNoCycle(c);
    }
    hide ContinuationDags, NoOwnAncestor, ParentScopes;
  }

  lemma AcyclicSessions(c: Core)
    requires ParentScopes(c) && ContinuationDags(c)
    ensures NoOwnAncestor(c.continuations)
  {
    hide HasCycle, Reaches, Parents, SessionGraph;
    var cs := c.continuations;
    forall k, p | k in cs && p in cs[k].parentIds ensures !Reaches(Parents(cs), p, k) {
      if Reaches(Parents(cs), p, k) {
        CycleInSession(cs, k, p);
      }
    }
  }

  lemma SessionsHaveNoCycle(c: Core)
    requires NoOwnAncestor(c.continuations)
    ensures ContinuationDags(c)
  {
    hide Reaches;
    var cs := c.continuations;
    forall s | s in c.sessions ensures !HasCycle(SessionGraph(cs, s)) {
      if HasCycle(SessionGraph(cs, s)) {
        AcyclicMono(SessionGraph(cs, s), Parents(cs));
        var a :| CycleAt(Parents(cs), a);
        CycleHasEdge(Parents(cs), a);
      }
    }
  }

  lemma CycleInSession(cs: map<Id, Continuation>, k: Id, p: Id)
    requires forall k, p :: k in cs && p in cs[k].parentIds ==> p in cs && cs[p].sessionId == cs[k].sessionId
    requires k in cs && p in cs[k].parentIds && Reaches(Parents(cs), p, k)
    ensures HasCycle(SessionGraph(cs, cs[k].sessionId))
  {
    var steps :| Walk(Parents(cs), p, steps, k);
    WalkInSession(cs, p, steps, k);
    CycleFromEdge(SessionGraph(cs, cs[k].sessionId), k, p);
  }

  lemma {:induction false} WalkInSession(cs: map<Id, Continuation>, a: Id, steps: seq<Id>, b: Id)
    requires forall k, p :: k in cs && p in cs[k].parentIds ==> p in cs && cs[p].sessionId == cs[k].sessionId
    requires Walk(Parents(cs), a, steps, b)
    ensures a in cs && Walk(SessionGraph(cs, cs[a].sessionId), a, steps, b)
    decreases |steps|
  {
    if steps != [] {
      WalkInSession(cs, steps[0], steps[1..], b);
    }
  }

  // ---------- States ----------

  /** No State rests on itself. */
  ghost predicate NoOwnSupport(ss: map<Id, ReusableState>) {
    forall s, d :: s in ss && d in ss[s].derivedFrom ==> !Reaches(Provenance(ss), d, s)
  }

  lemma NoneSupportsItself(ss: map<Id, ReusableState>)
    ensures !HasCycle(Provenance(ss)) <==> NoOwnSupport(ss)
  {
    if !HasCycle(Provenance(ss)) {
      forall s, d | s in ss && d in ss[s].derivedFrom ensures !Reaches(Provenance(ss), d, s) {
        if Reaches(Provenance(ss), d, s) {
          CycleFromEdge(Provenance(ss), s, d);
        }
      }
    }
    if HasCycle(Provenance(ss)) {
      var s :| CycleAt(Provenance(ss), s);
      CycleHasEdge(Provenance(ss), s);
    }
  }

  /** Where a State was made, as its fields and the entities they name tell it. */
  ghost predicate MadeWhereItSays(c: Core, x: ReusableState) {
    && x.originContinuationId in c.continuations
    && if x.originType == FromContinuation then
         && x.originContinuationId == x.originId
         && x.originRequestId == None && x.producerAttemptId == None && x.producerPhaseId == None
       else exists r, a :: MadeBy(c, x, r, a)
  }

  /** An attempt of the origin request made it, and the declared origin is that request, attempt or phase. */
  predicate MadeBy(c: Core, x: ReusableState, r: Id, a: Id) {
    && x.originRequestId == Some(r) && r in c.requests && c.requests[r].continuationId == x.originContinuationId
    && x.producerAttemptId == Some(a) && a in c.attempts && c.attempts[a].requestId == r
    && match x.originType
       case FromRequest =>
         && r == x.originId && x.producerPhaseId == None
         && c.requests[r].status == RequestCompleted && c.requests[r].committedAttemptId == Some(a)
       case FromAttempt => a == x.originId && x.producerPhaseId == None
       case FromPhase =>
         && x.producerPhaseId == Some(x.originId) && x.originId in c.phases && c.phases[x.originId].attemptId == a
         && (x.originId != "" ==> c.phases[x.originId].status == PhaseCompleted)
       case _ => false
  }

  /** What a State is derived from: States of ancestors, and of earlier phases when one attempt made both. */
  ghost predicate DerivedFromEarlier(c: Core, x: ReusableState) {
    forall d :: d in x.derivedFrom ==>
      && d in c.states
      && (c.states[d].originContinuationId == x.originContinuationId
          || Reaches(Parents(c.continuations), x.originContinuationId, c.states[d].originContinuationId))
      && (Truthy(x.producerPhaseId) && Truthy(c.states[d].producerPhaseId)
          && c.states[d].producerAttemptId == x.producerAttemptId ==>
            && x.producerPhaseId.value in c.phases && c.states[d].producerPhaseId.value in c.phases
            && c.phases[c.states[d].producerPhaseId.value].ordinal < c.phases[x.producerPhaseId.value].ordinal)
  }

  lemma StatesAreAccountedFor(c: Core, x: ReusableState)
    requires RequestsKeyed(c.requests) && RequestCommitConsistency(c)
    ensures ProvenanceOf(c, x) <==> MadeWhereItSays(c, x) && DerivedFromEarlier(c, x)
  {
    if ProvenanceOf(c, x) && x.originType != FromContinuation {
      if x.originType == FromRequest {
        assert CommitConsistent(c, c.requests[x.originId]);
      }
      assert MadeBy(c, x, x.originRequestId.value, x.producerAttemptId.value);
    }
    hide Reaches;
  }

  ghost predicate StatesStand(c: Core) {
    && NoOwnSupport(c.states)
    && forall s :: s in c.states ==> MadeWhereItSays(c, c.states[s]) && DerivedFromEarlier(c, c.states[s])
  }

  lemma ProvenanceIsAccountedFor(c: Core)
    requires RequestsKeyed(c.requests) && RequestCommitConsistency(c)
    ensures StateProvenance(c) <==> StatesStand(c)
  {
    hide ProvenanceOf, MadeWhereItSays, DerivedFromEarlier, NoOwnSupport, HasCycle, CommitConsistent;
    NoneSupportsItself(c.states);
    forall s | s in c.states
      ensures ProvenanceOf(c, c.states[s]) <==> MadeWhereItSays(c, c.states[s]) && DerivedFromEarlier(c, c.states[s])
    {
      StatesAreAccountedFor(c, c.states[s]);
    }
  }

  /** An INVALID State suits no context at all, so the last check says nothing more. */
  lemma InvalidSuitsNone(c: Core, valid: SemanticValidity)
    requires ParentScopes(c)
    ensures StateValidityCheck(c, valid)
    ensures forall s, ctx :: s in c.states && c.states[s].validity != StateValid ==> !Compatible(c, s, ctx, valid)
  {
    forall s, ctx | s in c.states && c.states[s].validity != StateValid ensures !Compatible(c, s, ctx, valid) {
      ReachesRefl(Provenance(c.states), s);
      UnfitAncestorBlocks(c, s, s, ctx, valid);
    }
  }

  // ---------- replicas, bindings, evidence, events and outputs ----------

  /** A binding is ACTIVE exactly when it is its subject's current one, at the subject's current epoch. */
  ghost predicate CurrentIsActive(c: Core) {
    && (forall b :: b in c.bindings ==>
          (c.bindings[b].status == BindingActive <==>
           c.bindings[b].subjectId in c.currentBinding && c.currentBinding[c.bindings[b].subjectId] == b))
    && forall s :: s in c.currentBinding ==>
         && c.currentBinding[s] in c.bindings && c.bindings[c.currentBinding[s]].subjectId == s
         && s in c.currentEpoch && c.currentEpoch[s] == c.bindings[c.currentBinding[s]].epoch
  }

  /** One subject's epochs differ and exceed their bases; the last allocated one is the newest binding's. */
  ghost predicate EpochsStand(c: Core) {
    && (forall a, b ::
          (a in c.bindings && b in c.bindings && c.bindings[a].subjectId == c.bindings[b].subjectId
           && c.bindings[a].epoch == c.bindings[b].epoch) ==> a == b)
    && forall b :: b in c.bindings ==>
         && c.bindings[b].epoch > c.bindings[b].baseEpoch
         && (exists newest :: Newest(c, c.bindings[b].subjectId, newest))
         && (c.bindings[b].subjectId in c.currentEpoch ==>
               exists d :: Bears(c, d, c.bindings[b].subjectId, c.currentEpoch[c.bindings[b].subjectId]))
  }

  predicate Bears(c: Core, b: Id, s: Id, epoch: int) {
    b in c.bindings && c.bindings[b].subjectId == s && c.bindings[b].epoch == epoch
  }

  /** The binding bears the last epoch allocated to the subject, and none of the subject's bears a later one. */
  ghost predicate Newest(c: Core, s: Id, newest: Id) {
    && s in c.lastAllocated && Bears(c, newest, s, c.lastAllocated[s])
    && forall b :: b in c.bindings && c.bindings[b].subjectId == s ==> c.bindings[b].epoch <= c.bindings[newest].epoch
  }

  /** DERIVED items, and only those, name a rule and recorded support that covers their scope and validity. */
  ghost predicate SupportStands(evidence: map<Id, Evidence>) {
    forall e :: e in evidence ==>
      && (evidence[e].authority == Derived <==> evidence[e].derivedFrom != {})
      && (evidence[e].authority == Derived <==>
            evidence[e].derivationRule.Some? && evidence[e].derivationRule.value != "")
      && (forall d :: d in evidence[e].derivedFrom ==>
            d in evidence && (evidence[e].status == EvidenceValid ==> evidence[d].status == EvidenceValid))
      && (evidence[e].derivedFrom != {} ==> forall x :: x in evidence[e].scope ==>
            exists d :: d in evidence[e].derivedFrom && d in evidence && x in evidence[d].scope)
  }

  ghost predicate ReplicasPlaced(c: Core) {
    forall p :: p in c.replicas ==>
      && c.replicas[p].stateId in c.states
      && forall b :: c.replicas[p].bindingId == Some(b) ==>
           b in c.bindings && c.replicas[p].bindingEpoch == Some(c.bindings[b].epoch)
  }

  /** The event order lists every recorded event once. */
  ghost predicate EventsListed(c: Core) {
    && (forall e :: e in c.events ==> exists i :: 0 <= i < |c.eventOrder| && c.eventOrder[i] == e)
    && (forall i :: 0 <= i < |c.eventOrder| ==> c.eventOrder[i] in c.events)
    && forall i, j ::
         0 <= i < |c.eventOrder| && 0 <= j < |c.eventOrder| && c.eventOrder[i] == c.eventOrder[j] ==> i == j
  }

  ghost predicate OutputsPlaced(c: Core) {
    forall o :: o in c.outputs ==>
      c.outputs[o].attemptId in c.attempts && forall e :: e in c.outputs[o].evidenceIds ==> e in c.evidence
  }

  lemma BindingsFollowNames(c: Core)
    ensures BindingAuthority(c) <==> CurrentIsActive(c)
  {
  }

  lemma EpochsAreAccountedFor(c: Core)
    ensures BindingGenerations(c) <==> EpochsStand(c)
  {
    forall s ensures SubjectEpochs(c, s) <==>
        && (exists newest :: Newest(c, s, newest))
        && (s in c.currentEpoch ==> exists d :: Bears(c, d, s, c.currentEpoch[s]))
    {
      SubjectIsAccountedFor(c, s);
    }
    hide SubjectEpochs, Newest, Bears;
  }

  lemma SubjectIsAccountedFor(c: Core, s: Id)
    ensures SubjectEpochs(c, s) <==>
        && (exists newest :: Newest(c, s, newest))
        && (s in c.currentEpoch ==> exists d :: Bears(c, d, s, c.currentEpoch[s]))
  {
    forall e: int ensures EpochInUse(c, s, e) <==> exists d :: Bears(c, d, s, e) {
      if EpochInUse(c, s, e) {
        var b :| b in c.bindings && c.bindings[b].subjectId == s && c.bindings[b].epoch == e;
        assert Bears(c, b, s, e);
      }
    }
    if SubjectEpochs(c, s) {
      var newest :| Bears(c, newest, s, c.lastAllocated[s]);
      assert Newest(c, s, newest);
    }
  }

  lemma SupportIsAccountedFor(c: Core)
    ensures EvidenceDerivation(c) <==> SupportStands(c.evidence)
  {
  }

  lemma RestIsAccountedFor(c: Core)
    requires EventsKeyed(c.events)
    ensures ReplicaIntegrity(c) <==> ReplicasPlaced(c)
    ensures EventIdentity(c) <==> EventsListed(c)
    ensures OutputIntegrity(c) <==> OutputsPlaced(c)
  {
  }

  // ---------- all checks together ----------

  /** A core whose entities account for one another. */
  ghost predicate Accountable(c: Core) {
    && KeysMatch(c) && Identity(c)
    && OwnersKnown(c) && AncestryInSession(c.continuations) && NoOwnAncestor(c.continuations)
    && AuthorityIsNamed(c) && AttemptsCountedOff(c) && PhasesCountedOff(c) && OutcomesStand(c)
    && StatesStand(c) && ReplicasPlaced(c)
    && CurrentIsActive(c) && EpochsStand(c)
    && SupportStands(c.evidence) && OutputsPlaced(c) && EventsListed(c)
  }

  /** The oracle accepts exactly the accountable cores, whatever the semantic predicate says. */
  lemma AcceptedMeansAccountable(c: Core, valid: SemanticValidity)
    ensures OracleAccepts(c, valid) <==> Accountable(c)
  {
    hide GlobalIdentityUniqueness, ParentScopes, AttemptAuthorityCheck, AttemptGenerations, RequestCommitConsistency,
        ContinuationDags, PhaseOrdering, StateProvenance, ReplicaIntegrity, BindingAuthority, BindingGenerations,
        EvidenceDerivation, EventIdentity, OutputIntegrity, StateValidityCheck;
    hide Identity, OwnersKnown, AncestryInSession, NoOwnAncestor, AuthorityIsNamed, AttemptsCountedOff,
        PhasesCountedOff, OutcomesStand, StatesStand, ReplicasPlaced, CurrentIsActive, EpochsStand, SupportStands,
        OutputsPlaced, EventsListed;
    IdentifiersAreUnique(c);
    OwnersAndAncestors(c);
    AuthorityFollowsNames(c);
    NumbersAreCountedOff(c);
    OutcomesAreBacked(c);
    BindingsFollowNames(c);
    EpochsAreAccountedFor(c);
    SupportIsAccountedFor(c);
    if KeysMatch(c) {
      RestIsAccountedFor(c);
      if RequestCommitConsistency(c) {
        ProvenanceIsAccountedFor(c);
      }
    }
    if ParentScopes(c) {
      NoneIsItsOwnAncestor(c);
      InvalidSuitsNone(c, valid);
    }
  }
}
