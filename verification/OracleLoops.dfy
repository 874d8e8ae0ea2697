/** The two checks of the oracle that fill a local collection in a loop, and what they decide. */
module OracleLoops {
  import opened Entities
  import opened CoreSpec
  import opened Oracle

  // ---------- global identity ----------

  /** One entity collection as the check sees it: each key with the identifier its entity carries. */
  type Identities = map<Id, Id>

  ghost predicate OwnKeys(m: Identities) {
    forall k :: k in m ==> m[k] == k
  }

  /** Every entity under its own identifier, and no identifier in two collections. */
  ghost predicate Distinct(tables: seq<Identities>) {
    && (forall i :: 0 <= i < |tables| ==> OwnKeys(tables[i]))
    && forall i, j :: 0 <= i < j < |tables| ==> tables[i].Keys !! tables[j].Keys
  }

  /** The identifiers of the first tables. */
  ghost function KeysOf(tables: seq<Identities>): (s: set<Id>)
    ensures forall k :: k in s <==> exists i :: 0 <= i < |tables| && k in tables[i]
  {
    if tables == [] then {}
    else
      assert tables == tables[..|tables| - 1] + [tables[|tables| - 1]];
      KeysOf(tables[..|tables| - 1]) + tables[|tables| - 1].Keys
  }

  lemma DistinctStep(tables: seq<Identities>, n: nat)
    requires n < |tables| && Distinct(tables[..n])
    requires OwnKeys(tables[n]) && tables[n].Keys !! KeysOf(tables[..n])
    ensures Distinct(tables[..n + 1])
  {
    var t := tables[..n + 1];
    assert t[..n] == tables[..n];
    forall i, j | 0 <= i < j < |t| ensures t[i].Keys !! t[j].Keys {
      if j < n {
        assert tables[..n][i].Keys !! tables[..n][j].Keys;
      } else {
        forall k | k in t[i] ensures k !in t[n] {
          assert k in tables[..n][i];
        }
      }
    }
    forall i | 0 <= i < |t| ensures OwnKeys(t[i]) {
      if i < n {
        assert OwnKeys(tables[..n][i]);
      }
    }
  }

  lemma Clash(tables: seq<Identities>, n: nat, k: Id)
    requires n < |tables| && k in tables[n] && (tables[n][k] != k || k in KeysOf(tables[..n]))
    ensures !Distinct(tables)
  {
    if tables[n][k] == k {
      var i :| 0 <= i < n && k in tables[..n][i];
      assert k in tables[i].Keys && k in tables[n].Keys;
    } else {
      assert !OwnKeys(tables[n]);
    }
  }

  /** The nested loop over all collections with one set of identifiers seen so far. */
  method CheckIdentities(tables: seq<Identities>) returns (ok: bool)
    ensures ok <==> Distinct(tables)
  {
    var seen: set<Id> := {};
    for n := 0 to |tables|
      invariant Distinct(tables[..n]) && seen == KeysOf(tables[..n])
    {
      var todo := tables[n].Keys;
      ghost var before := seen;
      while todo != {}
        invariant todo <= tables[n].Keys && seen == before + (tables[n].Keys - todo)
        invariant forall k :: k in tables[n] && k !in todo ==> tables[n][k] == k && k !in before
        decreases todo
      {
        var key :| key in todo;
        if tables[n][key] != key || key in seen {
          Clash(tables, n, key);
          return false;
        }
        seen := seen + {key};
        todo := todo - {key};
      }
      DistinctStep(tables, n);
      assert tables[..n + 1][..n] == tables[..n];
    }
    assert tables[..|tables|] == tables;
    ok := true;
  }

  function KeysAt(c: Core, i: nat): set<Id> {
    match i
    case 0 => c.programs.Keys
    case 1 => c.sessions.Keys
    case 2 => c.continuations.Keys
    case 3 => c.requests.Keys
    case 4 => c.attempts.Keys
    case 5 => c.phases.Keys
    case 6 => c.states.Keys
    case 7 => c.replicas.Keys
    case 8 => c.bindings.Keys
    case 9 => c.evidence.Keys
    case 10 => c.outputs.Keys
    case 11 => c.events.Keys
    case _ => {}
  }

  /** The identifier carried by the entity under `k` in the i-th collection. */
  function IdAt(c: Core, i: nat, k: Id): Id
    requires k in KeysAt(c, i)
  {
    match i
    case 0 => c.programs[k].id
    case 1 => c.sessions[k].id
    case 2 => c.continuations[k].id
    case 3 => c.requests[k].id
    case 4 => c.attempts[k].id
    case 5 => c.phases[k].id
    case 6 => c.states[k].id
    case 7 => c.replicas[k].id
    case 8 => c.bindings[k].id
    case 9 => c.evidence[k].id
    case 10 => c.outputs[k].id
    case 11 => c.events[k].id
    case _ => k
  }

  function CollectionAt(c: Core, i: nat): Identities {
    map k | k in KeysAt(c, i) :: IdAt(c, i, k)
  }

  /** The twelve entity collections, in the order of the source. */
  function Collections(c: Core): seq<Identities> {
    seq(12, i requires 0 <= i < 12 => CollectionAt(c, i))
  }

  lemma OnlyGives(c: Core, k: Id, i: nat, j: nat)
    requires i < 12 && j < 12 && i != j && Only(c, k, i)
    ensures k !in KeysAt(c, j)
  {
  }

  lemma OnlyFrom(c: Core, k: Id, i: nat)
    requires i < 12 && forall j :: 0 <= j < 12 && j != i ==> k !in KeysAt(c, j)
    ensures Only(c, k, i)
  {
    assert 0 != i ==> k !in KeysAt(c, 0);
    assert 1 != i ==> k !in KeysAt(c, 1);
    assert 2 != i ==> k !in KeysAt(c, 2);
    assert 3 != i ==> k !in KeysAt(c, 3);
    assert 4 != i ==> k !in KeysAt(c, 4);
    assert 5 != i ==> k !in KeysAt(c, 5);
    assert 6 != i ==> k !in KeysAt(c, 6);
    assert 7 != i ==> k !in KeysAt(c, 7);
    assert 8 != i ==> k !in KeysAt(c, 8);
    assert 9 != i ==> k !in KeysAt(c, 9);
    assert 10 != i ==> k !in KeysAt(c, 10);
    assert 11 != i ==> k !in KeysAt(c, 11);
  }

  /** The i-th conjunct of the check. */
  ghost predicate UniqueAt(c: Core, i: nat) {
    forall k :: k in KeysAt(c, i) ==> IdAt(c, i, k) == k && Only(c, k, i)
  }

  lemma UniquenessFrom(c: Core)
    requires forall i :: 0 <= i < 12 ==> UniqueAt(c, i)
    ensures GlobalIdentityUniqueness(c)
  {
    hide Only;
    forall k | k in c.programs ensures c.programs[k].id == k && Only(c, k, 0) {
      assert UniqueAt(c, 0) && k in KeysAt(c, 0) && IdAt(c, 0, k) == c.programs[k].id;
    }
    forall k | k in c.sessions ensures c.sessions[k].id == k && Only(c, k, 1) {
      assert UniqueAt(c, 1) && k in KeysAt(c, 1) && IdAt(c, 1, k) == c.sessions[k].id;
    }
    forall k | k in c.continuations ensures c.continuations[k].id == k && Only(c, k, 2) {
      assert UniqueAt(c, 2) && k in KeysAt(c, 2) && IdAt(c, 2, k) == c.continuations[k].id;
    }
    forall k | k in c.requests ensures c.requests[k].id == k && Only(c, k, 3) {
      assert UniqueAt(c, 3) && k in KeysAt(c, 3) && IdAt(c, 3, k) == c.requests[k].id;
    }
    forall k | k in c.attempts ensures c.attempts[k].id == k && Only(c, k, 4) {
      assert UniqueAt(c, 4) && k in KeysAt(c, 4) && IdAt(c, 4, k) == c.attempts[k].id;
    }
    forall k | k in c.phases ensures c.phases[k].id == k && Only(c, k, 5) {
      assert UniqueAt(c, 5) && k in KeysAt(c, 5) && IdAt(c, 5, k) == c.phases[k].id;
    }
    forall k | k in c.states ensures c.states[k].id == k && Only(c, k, 6) {
      assert UniqueAt(c, 6) && k in KeysAt(c, 6) && IdAt(c, 6, k) == c.states[k].id;
    }
    forall k | k in c.replicas ensures c.replicas[k].id == k && Only(c, k, 7) {
      assert UniqueAt(c, 7) && k in KeysAt(c, 7) && IdAt(c, 7, k) == c.replicas[k].id;
    }
    forall k | k in c.bindings ensures c.bindings[k].id == k && Only(c, k, 8) {
      assert UniqueAt(c, 8) && k in KeysAt(c, 8) && IdAt(c, 8, k) == c.bindings[k].id;
    }
    forall k | k in c.evidence ensures c.evidence[k].id == k && Only(c, k, 9) {
      assert UniqueAt(c, 9) && k in KeysAt(c, 9) && IdAt(c, 9, k) == c.evidence[k].id;
    }
    forall k | k in c.outputs ensures c.outputs[k].id == k && Only(c, k, 10) {
      assert UniqueAt(c, 10) && k in KeysAt(c, 10) && IdAt(c, 10, k) == c.outputs[k].id;
    }
    forall k | k in c.events ensures c.events[k].id == k && Only(c, k, 11) {
      assert UniqueAt(c, 11) && k in KeysAt(c, 11) && IdAt(c, 11, k) == c.events[k].id;
    }
  }

  lemma UniqueAtEach(c: Core, i: nat)
    requires GlobalIdentityUniqueness(c) && i < 12
    ensures UniqueAt(c, i)
  {
    hide Only;
    forall k | k in KeysAt(c, i) ensures IdAt(c, i, k) == k && Only(c, k, i) {
    }
  }

  lemma CollectionsAgree(c: Core)
    ensures Distinct(Collections(c)) <==> GlobalIdentityUniqueness(c)
  {
    hide IdAt, KeysAt, Only, GlobalIdentityUniqueness;
    if Distinct(Collections(c)) {
      forall i, k | 0 <= i < 12 && k in KeysAt(c, i) ensures IdAt(c, i, k) == k && Only(c, k, i) {
        assert OwnKeys(Collections(c)[i]) && k in CollectionAt(c, i);
        forall j | 0 <= j < 12 && j != i ensures k !in KeysAt(c, j) {
          var a, b := if i < j then i else j, if i < j then j else i;
          assert Collections(c)[a].Keys !! Collections(c)[b].Keys;
        }
        OnlyFrom(c, k, i);
      }
      UniquenessFrom(c);
    }
    if GlobalIdentityUniqueness(c) {
      forall i | 0 <= i < 12 ensures UniqueAt(c, i) {
        UniqueAtEach(c, i);
      }
      forall i, j | 0 <= i < j < 12 ensures Collections(c)[i].Keys !! Collections(c)[j].Keys {
        forall k | k in KeysAt(c, i) ensures k !in KeysAt(c, j) {
          assert UniqueAt(c, i);
          OnlyGives(c, k, i, j);
        }
      }
      forall i | 0 <= i < 12 ensures OwnKeys(Collections(c)[i]) {
        assert UniqueAt(c, i);
      }
    }
  }

  method CheckGlobalIdentityUniqueness(c: Core) returns (ok: bool)
    ensures ok <==> GlobalIdentityUniqueness(c)
  {
    ok := CheckIdentities(Collections(c));
    CollectionsAgree(c);
  }

  // ---------- binding generations ----------

  /** `groups` lists, under each subject, the bindings of `done` that are its own, each once. */
  ghost predicate Grouped(bindings: map<Id, Binding>, done: set<Id>, groups: map<Id, seq<Id>>) {
    && (forall s, i :: s in groups && 0 <= i < |groups[s]| ==>
       groups[s][i] in done && groups[s][i] in bindings && bindings[groups[s][i]].subjectId == s)
    && (forall b :: b in done && b in bindings ==>
       bindings[b].subjectId in groups && b in groups[bindings[b].subjectId])
    && (forall s, i, j :: s in groups && 0 <= i < j < |groups[s]| ==> groups[s][i] != groups[s][j])
    && forall s :: s in groups ==> groups[s] != []
  }

  lemma GroupOneMore(bindings: map<Id, Binding>, done: set<Id>, groups: map<Id, seq<Id>>, b: Id, groups': map<Id,
      seq<Id>>)
    requires Grouped(bindings, done, groups) && b in bindings && b !in done
    requires var s := bindings[b].subjectId; groups' == groups[s := (if s in groups then groups[s] else []) + [b]]
    ensures Grouped(bindings, done + {b}, groups')
  {
    var s := bindings[b].subjectId;
    forall x | x in done + {b} && x in bindings
      ensures bindings[x].subjectId in groups' && x in groups'[bindings[x].subjectId]
    {
      if x == b {
        assert groups'[s][|groups'[s]| - 1] == b;
      } else {
        var t := bindings[x].subjectId;
        assert x in groups[t];
        assert t == s ==> groups'[t] == groups[t] + [b];
      }
    }
  }

  function EpochsOf(bindings: map<Id, Binding>, ids: seq<Id>): (q: seq<int>)
    requires forall i :: 0 <= i < |ids| ==> ids[i] in bindings
    ensures |q| == |ids| && forall i :: 0 <= i < |ids| ==> q[i] == bindings[ids[i]].epoch
  {
    seq(|ids|, i requires 0 <= i < |ids| => bindings[ids[i]].epoch)
  }

  /** `len(q) == len(set(q))`. */
  predicate AllDifferent(q: seq<int>) {
    |set x | x in q| == |q|
  }

  lemma {:induction false} AllDifferentMeans(q: seq<int>)
    ensures |set x | x in q| <= |q|
    ensures AllDifferent(q) <==> forall i, j :: 0 <= i < j < |q| ==> q[i] != q[j]
  {
    if q != [] {
      var last, rest := q[|q| - 1], q[..|q| - 1];
      AllDifferentMeans(rest);
      assert q == rest + [last];
      var s := set x | x in rest;
      assert (set x | x in q) == s + {last};
      if last in rest {
        assert s + {last} == s;
        var i :| 0 <= i < |rest| && rest[i] == last;
        assert q[i] == q[|q| - 1];
      } else {
        assert forall i :: 0 <= i < |rest| ==> rest[i] != last;
      }
    }
  }

  method Largest(q: seq<int>) returns (m: int)
    requires q != []
    ensures m in q && forall x :: x in q ==> x <= m
  {
    m := q[0];
    for k := 1 to |q|
      invariant m in q && forall i :: 0 <= i < k ==> q[i] <= m
    {
      if m < q[k] {
        m := q[k];
      }
    }
  }

  ghost predicate EpochsDiffer(c: Core, s: Id) {
    forall a, b ::
      a in c.bindings && b in c.bindings && a != b && c.bindings[a].subjectId == c.bindings[b].subjectId == s ==>
        c.bindings[a].epoch != c.bindings[b].epoch
  }

  /** What the second loop asks of one subject. */
  ghost predicate SubjectPasses(c: Core, s: Id) {
    EpochsDiffer(c, s) && SubjectEpochs(c, s)
  }

  lemma EpochsAre(c: Core, groups: map<Id, seq<Id>>, s: Id)
    requires Grouped(c.bindings, c.bindings.Keys, groups) && s in groups
    ensures forall e :: e in EpochsOf(c.bindings, groups[s]) <==> EpochInUse(c, s, e)
  {
    var ids := groups[s];
    var q := EpochsOf(c.bindings, ids);
    forall e | EpochInUse(c, s, e) ensures e in q {
      var b :| b in c.bindings && c.bindings[b].subjectId == s && c.bindings[b].epoch == e;
      assert b in ids;
      var i :| 0 <= i < |ids| && ids[i] == b;
      assert q[i] == e;
    }
    forall e | e in q ensures EpochInUse(c, s, e) {
      var i :| 0 <= i < |q| && q[i] == e;
      assert ids[i] in c.bindings && c.bindings[ids[i]].subjectId == s;
    }
  }

  lemma EpochsAllDiffer(c: Core, groups: map<Id, seq<Id>>, s: Id)
    requires Grouped(c.bindings, c.bindings.Keys, groups) && s in groups
    ensures AllDifferent(EpochsOf(c.bindings, groups[s])) <==> EpochsDiffer(c, s)
  {
    var ids := groups[s];
    var q := EpochsOf(c.bindings, ids);
    AllDifferentMeans(q);
    if AllDifferent(q) {
      forall a, b | a in c.bindings && b in c.bindings && a != b &&
          c.bindings[a].subjectId == c.bindings[b].subjectId == s
        ensures c.bindings[a].epoch != c.bindings[b].epoch
      {
        assert a in ids && b in ids;
        var i, j :| 0 <= i < |ids| && ids[i] == a && 0 <= j < |ids| && ids[j] == b;
        assert q[i] != q[j];
      }
    }
    if EpochsDiffer(c, s) {
      forall i, j | 0 <= i < j < |q| ensures q[i] != q[j] {
        assert ids[i] != ids[j] && ids[i] in c.bindings && ids[j] in c.bindings;
      }
    }
  }

  /** The last allocated epoch must be the largest one used. */
  lemma LargestIsAllocated(c: Core, epochs: seq<int>, s: Id, top: int)
    requires forall e :: e in epochs <==> EpochInUse(c, s, e)
    requires top in epochs && forall e :: e in epochs ==> e <= top
    ensures SubjectEpochs(c, s) <==>
            s in c.lastAllocated && c.lastAllocated[s] == top && (s in c.currentEpoch ==> c.currentEpoch[s] in epochs)
  {
    forall b | b in c.bindings && c.bindings[b].subjectId == s ensures c.bindings[b].epoch <= top {
      assert EpochInUse(c, s, c.bindings[b].epoch);
    }
    assert EpochInUse(c, s, top);
  }

  /** The body of the second loop. */
  method CheckSubject(c: Core, groups: map<Id, seq<Id>>, s: Id) returns (ok: bool)
    requires Grouped(c.bindings, c.bindings.Keys, groups) && s in groups
    ensures ok <==> SubjectPasses(c, s)
  {
    hide SubjectEpochs, EpochsDiffer, EpochInUse, AllDifferent, Grouped;
    SubjectsListIsGood(c.bindings, groups, s);
    var epochs := EpochsOf(c.bindings, groups[s]);
    EpochsAre(c, groups, s);
    EpochsAllDiffer(c, groups, s);
    if !AllDifferent(epochs) {
      return false;
    }
    var top := Largest(epochs);
    LargestIsAllocated(c, epochs, s, top);
    if s !in c.lastAllocated || c.lastAllocated[s] != top {
      return false;
    }
    ok := s !in c.currentEpoch || c.currentEpoch[s] in epochs;
  }

  lemma SubjectsListIsGood(bindings: map<Id, Binding>, groups: map<Id, seq<Id>>, s: Id)
    requires Grouped(bindings, bindings.Keys, groups) && s in groups
    ensures groups[s] != [] && forall i :: 0 <= i < |groups[s]| ==> groups[s][i] in bindings
  {
  }

  method CheckBindingGenerations(c: Core) returns (ok: bool)
    ensures ok <==> BindingGenerations(c)
  {
    hide BindingGenerations, SubjectPasses, Grouped;
    NoGroups(c.bindings);
    var groups: map<Id, seq<Id>> := map[];
    var todo := c.bindings.Keys;
    while todo != {}
      invariant todo <= c.bindings.Keys && Grouped(c.bindings, c.bindings.Keys - todo, groups)
      invariant forall b :: b in c.bindings && b !in todo ==> c.bindings[b].baseEpoch < c.bindings[b].epoch
      decreases todo
    {
      var b :| b in todo;
      var s := c.bindings[b].subjectId;
      ghost var before := groups;
      groups := groups[s := (if s in groups then groups[s] else []) + [b]];
      GroupOneMore(c.bindings, c.bindings.Keys - todo, before, b, groups);
      assert c.bindings.Keys - (todo - {b}) == (c.bindings.Keys - todo) + {b};
      todo := todo - {b};
      if c.bindings[b].baseEpoch >= c.bindings[b].epoch {
        EpochNotAboveBase(c, b);
        return false;
      }
    }
    assert c.bindings.Keys - {} == c.bindings.Keys;
    GenerationsBySubject(c, groups);
    var subjects := groups.Keys;
    while subjects != {}
      invariant subjects <= groups.Keys && forall s :: s in groups && s !in subjects ==> SubjectPasses(c, s)
      decreases subjects
    {
      var s :| s in subjects;
      subjects := subjects - {s};
      var passes := CheckSubject(c, groups, s);
      if !passes {
        return false;
      }
    }
    ok := true;
  }

  lemma NoGroups(bindings: map<Id, Binding>)
    ensures Grouped(bindings, bindings.Keys - bindings.Keys, map[])
  {
  }

  lemma EpochNotAboveBase(c: Core, b: Id)
    requires b in c.bindings && c.bindings[b].baseEpoch >= c.bindings[b].epoch
    ensures !BindingGenerations(c)
  {
  }

  lemma GenerationsBySubject(c: Core, groups: map<Id, seq<Id>>)
    requires Grouped(c.bindings, c.bindings.Keys, groups)
    requires forall b :: b in c.bindings ==> c.bindings[b].baseEpoch < c.bindings[b].epoch
    ensures BindingGenerations(c) <==> forall s :: s in groups ==> SubjectPasses(c, s)
  {
    hide SubjectEpochs;
    if BindingGenerations(c) {
      forall s | s in groups ensures SubjectPasses(c, s) {
        var b := groups[s][0];
        assert b in c.bindings && c.bindings[b].subjectId == s;
      }
    }
    if forall s :: s in groups ==> SubjectPasses(c, s) {
      forall b | b in c.bindings ensures SubjectEpochs(c, c.bindings[b].subjectId) {
        assert SubjectPasses(c, c.bindings[b].subjectId);
      }
      forall a, b | a in c.bindings && b in c.bindings && a != b && c.bindings[a].subjectId == c.bindings[b].subjectId
        ensures c.bindings[a].epoch != c.bindings[b].epoch
      {
        assert SubjectPasses(c, c.bindings[a].subjectId);
      }
    }
  }
}
