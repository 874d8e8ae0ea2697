/** What a replay amounts to, and when cutting it with a snapshot and a restore makes no difference. */
module Checkpoint {
  import opened Entities
  import opened CoreSpec
  import opened Oracle
  import opened OracleRuns
  import opened StateCompatibility
  import opened Snapshot
  import opened ReplayFold

  /** For every run from empty: its snapshot restores to the same core iff no call ever slipped the fence. */
  lemma ReachableRoundTrip(ops: seq<Op>, order: C.IterationOrder, le: (C.Json, C.Json) -> bool, valid: SemanticValidity)
    requires C.Enumerates(order)
    ensures var c := Run(EmptyCore, ops);
            RestoreCore(SnapshotCore(c, order, le), valid) == if NeverSlips(EmptyCore, ops) then Ok(c)
                else Err(ValueError)
  {
    hide OracleAccepts, NeverSlips, SnapshotCore, RestoreCore;
    RestoreOfSnapshot(Run(EmptyCore, ops), order, le, valid);
    OracleAcceptsRunIffNeverSlips(ops, valid);
  }

  ghost predicate DistinctIds(ops: seq<Operation>) {
    forall i, j :: 0 <= i < j < |ops| ==> ops[i].id != ops[j].id
  }

  /** Every call is accepted in the state its predecessors leave. */
  ghost predicate AllAccepted(c: Core, ops: seq<Operation>) {
    forall k :: 0 <= k < |ops| ==> Accepted(Run(c, Calls(ops)[..k]), ops[k].op)
  }

  lemma RunFromHead(c: Core, op: Op, rest: seq<Op>)
    ensures Run(c, [op] + rest) == Run(Step(c, op), rest)
  {
    RunConcat(c, [op], rest);
    assert [op][..0] == [];
    assert Run(c, [op]) == Step(Run(c, [op][..0]), op);
  }

  lemma AcceptedFromHead(c: Core, ops: seq<Operation>)
    requires ops != []
    ensures AllAccepted(c, ops) <==> Accepted(c, ops[0].op) && AllAccepted(Step(c, ops[0].op), ops[1..])
  {
    hide Step, Accepted;
    var rest := ops[1..];
    forall k | 0 <= k < |rest|
      ensures Run(c, Calls(ops)[..k + 1]) == Run(Step(c, ops[0].op), Calls(rest)[..k])
    {
      assert Calls(ops)[..k + 1] == [ops[0].op] + Calls(rest)[..k];
      RunFromHead(c, ops[0].op, Calls(rest)[..k]);
    }
    assert Calls(ops)[..0] == [];
    if AllAccepted(c, ops) {
      assert Accepted(Run(c, Calls(ops)[..0]), ops[0].op);
      forall k | 0 <= k < |rest| ensures Accepted(Run(Step(c, ops[0].op), Calls(rest)[..k]), rest[k].op) {
        assert Accepted(Run(c, Calls(ops)[..k + 1]), ops[k + 1].op);
      }
    }
    if Accepted(c, ops[0].op) && AllAccepted(Step(c, ops[0].op), rest) {
      forall k | 0 <= k < |ops| ensures Accepted(Run(c, Calls(ops)[..k]), ops[k].op) {
        if k > 0 {
          assert Accepted(Run(Step(c, ops[0].op), Calls(rest)[..k - 1]), rest[k - 1].op);
        }
      }
    }
  }

  /**
   A replay completes exactly when no identifier repeats and every call is accepted in turn; it then
   ends where the plain run of its calls ends.
   */
  lemma {:induction false} ReplayIsRun(c: Core, ops: seq<Operation>, seen: set<Id>)
    ensures ReplayFrom(c, ops, seen).complete <==> DistinctIds(ops) && Ids(ops) !! seen && AllAccepted(c, ops)
    ensures ReplayFrom(c, ops, seen).complete ==> ReplayFrom(c, ops, seen).core == Run(c, Calls(ops))
    decreases |ops|
  {
    hide Step, Accepted, AllAccepted;
    if ops == [] {
      assert Calls(ops) == [];
      NothingToAccept(c, ops);
    } else {
      var head, rest := ops[0], ops[1..];
      ReplayIsRun(Step(c, head.op), rest, seen + {head.id});
      AcceptedFromHead(c, ops);
      DistinctFromHead(ops, seen);
      assert Calls(ops) == [head.op] + Calls(rest);
      RunFromHead(c, head.op, Calls(rest));
    }
  }

  lemma NothingToAccept(c: Core, ops: seq<Operation>)
    requires ops == []
    ensures AllAccepted(c, ops)
  {
  }

  lemma DistinctFromHead(ops: seq<Operation>, seen: set<Id>)
    requires ops != []
    ensures DistinctIds(ops) && Ids(ops) !! seen <==>
              ops[0].id !in seen && DistinctIds(ops[1..]) && Ids(ops[1..]) !! seen + {ops[0].id}
  {
    var rest := ops[1..];
    assert ops == [ops[0]] + rest;
    assert Ids(ops) == Ids(rest) + {ops[0].id};
    if DistinctIds(ops) {
      forall i | 0 <= i < |rest| ensures rest[i].id != ops[0].id {
        assert ops[i + 1] == rest[i];
      }
      forall i, j | 0 <= i < j < |rest| ensures rest[i].id != rest[j].id {
        assert ops[i + 1] == rest[i] && ops[j + 1] == rest[j];
      }
    }
    if DistinctIds(rest) && Ids(rest) !! seen + {ops[0].id} {
      forall i, j | 0 <= i < j < |ops| ensures ops[i].id != ops[j].id {
        if i == 0 {
          assert ops[j] in rest && ops[j].id in Ids(rest);
        } else {
          assert rest[i - 1] == ops[i] && rest[j - 1] == ops[j];
        }
      }
    }
  }

  /** Whatever happens, a replay ends after some prefix of its calls. */
  lemma {:induction false} ReplayStopsAtPrefix(c: Core, ops: seq<Operation>, seen: set<Id>)
    ensures exists n :: 0 <= n <= |ops| && ReplayFrom(c, ops, seen).core == Run(c, Calls(ops)[..n])
    decreases |ops|
  {
    hide Step, Accepted;
    assert Calls(ops)[..0] == [];
    if ops != [] && ops[0].id !in seen && Accepted(c, ops[0].op) {
      var head, rest := ops[0], ops[1..];
      ReplayStopsAtPrefix(Step(c, head.op), rest, seen + {head.id});
      var n :| 0 <= n <= |rest| && ReplayFrom(Step(c, head.op), rest, seen + {head.id}).core ==
          Run(Step(c, head.op), Calls(rest)[..n]);
      assert Calls(ops)[..n + 1] == [head.op] + Calls(rest)[..n];
      RunFromHead(c, head.op, Calls(rest)[..n]);
    } else {
      assert ReplayFrom(c, ops, seen).core == Run(c, Calls(ops)[..0]);
    }
  }

  /** Replaying in two parts, the second remembering the identifiers of the first. */
  lemma {:induction false} ReplayConcat(c: Core, p: seq<Operation>, q: seq<Operation>, seen: set<Id>)
    ensures ReplayFrom(c, p + q, seen) ==
            var first := ReplayFrom(c, p, seen);
            if first.complete then ReplayFrom(first.core, q, seen + Ids(p)) else first
    decreases |p|
  {
    hide Step, Accepted;
    if p == [] {
      assert p + q == q;
      assert seen + Ids(p) == seen;
    } else {
      var head, rest := p[0], p[1..];
      assert (p + q)[1..] == rest + q;
      assert p == [head] + rest;
      assert seen + Ids(p) == seen + {head.id} + Ids(rest);
      ReplayConcat(Step(c, head.op), rest, q, seen + {head.id});
    }
  }

  /** Identifiers that do not occur make no difference to the duplicate check. */
  lemma {:induction false} ReplayForgetsForeign(c: Core, ops: seq<Operation>, s: set<Id>, t: set<Id>)
    requires s * Ids(ops) == t * Ids(ops)
    ensures ReplayFrom(c, ops, s) == ReplayFrom(c, ops, t)
    decreases |ops|
  {
    hide Step, Accepted;
    if ops != [] {
      var head, rest := ops[0], ops[1..];
      assert ops == [head] + rest;
      assert Ids(ops) == Ids(rest) + {head.id};
      assert head.id in Ids(ops);
      assert head.id in s <==> head.id in s * Ids(ops);
      assert head.id in t <==> head.id in t * Ids(ops);
      assert (s + {head.id}) * Ids(rest) == (t + {head.id}) * Ids(rest) by {
        forall x | x in Ids(rest) ensures x in s <==> x in t {
          assert x in s <==> x in s * Ids(ops);
          assert x in t <==> x in t * Ids(ops);
        }
      }
      ReplayForgetsForeign(Step(c, head.op), rest, s + {head.id}, t + {head.id});
    }
  }

  // ---------- checkpoints ----------

  /** Replay `p`, snapshot, restore, replay `q` on the restored core; None when the snapshot is refused. */
  ghost function CutReplay(p: seq<Operation>, q: seq<Operation>, order: C.IterationOrder, le: (C.Json, C.Json) -> bool,
                           valid: SemanticValidity): Option<Replayed>
    requires C.Enumerates(order)
  {
    var restored := RestoreCore(SnapshotCore(ReplayFrom(EmptyCore, p, {}).core, order, le), valid);
    if restored.Ok? then Some(ReplayFrom(restored.value, q, {})) else None
  }

  /** The checkpoint is refused exactly when the first part made a call that slips the fence. */
  lemma CheckpointAccepted(p: seq<Operation>, q: seq<Operation>, order: C.IterationOrder,
      le: (C.Json, C.Json) -> bool, valid: SemanticValidity)
    requires C.Enumerates(order) && ReplayFrom(EmptyCore, p, {}).complete
    ensures CutReplay(p, q, order, le, valid) ==
            if NeverSlips(EmptyCore, Calls(p)) then Some(ReplayFrom(ReplayFrom(EmptyCore, p, {}).core, q, {})) else None
  {
    hide NeverSlips, SnapshotCore, RestoreCore, ReplayFrom, Run;
    ReplayIsRun(EmptyCore, p, {});
    ReachableRoundTrip(Calls(p), order, le, valid);
  }

  /**
   Checkpoint equivalence: cutting a replay anywhere gives the same final core and the same outcome,
   as long as no identifier of the second part already occurs in the first.
   */
  lemma CheckpointEquivalence(p: seq<Operation>, q: seq<Operation>, order: C.IterationOrder,
      le: (C.Json, C.Json) -> bool, valid: SemanticValidity)
    requires C.Enumerates(order) && ReplayFrom(EmptyCore, p, {}).complete && NeverSlips(EmptyCore, Calls(p))
    requires Ids(p) !! Ids(q)
    ensures CutReplay(p, q, order, le, valid) == Some(ReplayFrom(EmptyCore, p + q, {}))
  {
    hide NeverSlips, CutReplay, ReplayFrom;
    CheckpointAccepted(p, q, order, le, valid);
    ReplayConcat(EmptyCore, p, q, {});
    var middle := ReplayFrom(EmptyCore, p, {}).core;
    assert {} * Ids(q) == ({} + Ids(p)) * Ids(q);
    ReplayForgetsForeign(middle, q, {}, {} + Ids(p));
  }

  /**
   The duplicate check does not survive the cut: the uncut replay completes exactly when the cut one does
   and no identifier of the second part occurs in the first.
   */
  lemma CutForgetsIdentifiers(p: seq<Operation>, q: seq<Operation>, order: C.IterationOrder,
      le: (C.Json, C.Json) -> bool, valid: SemanticValidity)
    requires C.Enumerates(order) && ReplayFrom(EmptyCore, p, {}).complete && NeverSlips(EmptyCore, Calls(p))
    ensures CutReplay(p, q, order, le, valid).Some?
    ensures ReplayFrom(EmptyCore, p + q, {}).complete <==>
            CutReplay(p, q, order, le, valid).value.complete && Ids(p) !! Ids(q)
  {
    hide NeverSlips, CutReplay, ReplayFrom, AllAccepted, DistinctIds;
    CheckpointAccepted(p, q, order, le, valid);
    ReplayConcat(EmptyCore, p, q, {});
    var middle := ReplayFrom(EmptyCore, p, {}).core;
    ReplayIsRun(middle, q, {});
    ReplayIsRun(middle, q, {} + Ids(p));
  }

  /** The core after any replay from empty, complete or not, is one a run reaches. */
  lemma ReplayedCoreIsReachable(ops: seq<Operation>)
    ensures exists calls :: ReplayFrom(EmptyCore, ops, {}).core == Run(EmptyCore, calls)
  {
    ReplayStopsAtPrefix(EmptyCore, ops, {});
  }

  /** One accepted call under one identifier. */
  lemma ReplayOne(c: Core, o: Operation)
    requires Accepted(c, o.op)
    ensures ReplayFrom(c, [o], {}) == Replayed(Step(c, o.op), true)
    ensures Ids([o]) == {o.id} && Calls([o]) == [o.op]
  {
    hide Accepted, Step;
    assert ReplayFrom(Step(c, o.op), [o][1..], {} + {o.id}) == Replayed(Step(c, o.op), true);
  }

  lemma TwoPrograms()
    ensures Accepted(EmptyCore, CreateProgram("p"))
    ensures Accepted(Step(EmptyCore, CreateProgram("p")), CreateProgram("q"))
  {
  }

  /** Running the log with a repeated identifier: refused as one log, accepted in two. */
  lemma RepeatedIdentifierExample(order: C.IterationOrder, le: (C.Json, C.Json) -> bool, valid: SemanticValidity)
    requires C.Enumerates(order)
    ensures var p, q := [Operation("a", CreateProgram("p"))], [Operation("a", CreateProgram("q"))];
            && !ReplayFrom(EmptyCore, p + q, {}).complete
            && CutReplay(p, q, order, le, valid).Some? && CutReplay(p, q, order, le, valid).value.complete
  {
    hide Accepted, Step, ReplayFrom, CutReplay, NeverSlips, Run;
    var p, q := [Operation("a", CreateProgram("p"))], [Operation("a", CreateProgram("q"))];
    TwoPrograms();
    ReplayOne(EmptyCore, p[0]);
    ReplayOne(Step(EmptyCore, p[0].op), q[0]);
    NamedRunsSatisfyOracle(Calls(p), valid);
    OracleAcceptsRunIffNeverSlips(Calls(p), valid);
    CheckpointAccepted(p, q, order, le, valid);
    CutForgetsIdentifiers(p, q, order, le, valid);
    assert "a" in Ids(p) && "a" in Ids(q);
  }
}
