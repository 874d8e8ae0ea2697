/** A concrete program on which the engine raises: three ADMITs at one instant over one slot. */
module RetentionExamples {
  import opened Entities
  import opened Sorting
  import opened RetentionModel
  import opened RetentionRuns
  import opened RetentionSafety
  import opened RetentionTime
  import opened RetentionCapacity
  import opened RetentionLruRuns
  import opened RetentionBranchB4

  /** Two States that only differ in name, and an ADMIT of the first repeated at the same time. */
  function Arrivals(): seq<Event> {
    [Event("1", 0.0, 0, Admit("a")), Event("2", 0.0, 1, Admit("b")), Event("3", 0.0, 2, Admit("a"))]
  }

  function Crowded(): Case {
    Case(map["s" := true], map["a" := StateSpec("s", [LifeWaiting]), "b" := StateSpec("s", [LifeWaiting])],
         Arrivals(), 0.0, 1.0)
  }

  lemma CrowdedIsWellFormed()
    ensures WellFormedCase(Crowded())
  {
    var p := Crowded();
    assert Arrivals()[0] in p.events && Arrivals()[1] in p.events;
    assert "s" in p.sessions && "a" in p.states;
    forall e | e in p.events ensures e.time == 0.0 && KnownNames(p, e.kind) && e.kind.Admit? {
      var i :| 0 <= i < 3 && e == Arrivals()[i];
    }
  }

  lemma CrowdedTimes()
    ensures ExternalTimes(Arrivals()) == [0.0]
  {
    var q := Arrivals();
    var none: seq<Event> := [];
    assert q[..2] == [q[0], q[1]];
    assert ExternalTimes([q[0]]) == [0.0] by {
      assert [q[0]][..0] == none;
    }
    assert ExternalTimes([q[0], q[1]]) == [0.0] by {
      assert [q[0], q[1]][..1] == [q[0]];
    }
  }

  lemma CrowdedBatch()
    ensures Batch(Crowded(), 0.0) == Arrivals()
  {
    var q := Arrivals();
    var none: seq<Event> := [];
    assert q[..2] == [q[0], q[1]];
    assert At([q[0]], 0.0) == [q[0]] by {
      assert [q[0]][..0] == none;
    }
    assert At([q[0], q[1]], 0.0) == [q[0], q[1]] by {
      assert [q[0], q[1]][..1] == [q[0]];
    }
    assert At(q, 0.0) == q;
    hide At;
    SortOfSorted(q, EventLe);
  }

  lemma Admitted(e: Engine, cfg: Config, ev: Event)
    requires Ready(e.c, Crowded()) && cfg.policy == Lru && cfg.capacity == STATE_BYTES
    requires ev.kind.Admit? && ev.kind.state in {"a", "b"} && ev.kind.state !in e.c.resident
    requires e.c.truth[ev.kind.state].valid
    ensures KnownNames(Crowded(), ev.kind)
    ensures var r := PassStep(e, Crowded(), cfg, Admitting, ev).c;
            && r.resident.Keys == e.c.resident.Keys + {ev.kind.state}
            && r.truth.Keys == e.c.truth.Keys && forall s :: s in e.c.truth ==> r.truth[s].valid == e.c.truth[s].valid
  {
  }

  lemma PassOfTwo(e: Engine, p: Case, cfg: Config, pass: Pass, a: Event, b: Event)
    requires Ready(e.c, p) && KnownNames(p, a.kind) && KnownNames(p, b.kind)
    ensures PassOver(e, p, cfg, pass, [a, b]) == PassStep(PassStep(e, p, cfg, pass, a), p, cfg, pass, b)
  {
    hide PassStep, Ready, KnownNames;
    assert [a, b][..1] == [a] && [a][..0] == [];
    assert PassOver(e, p, cfg, pass, [a]) == PassStep(e, p, cfg, pass, a);
  }

  lemma FirstTwo()
    ensures var q := Arrivals(); q[..2] == [q[0], q[1]] && q[0].kind == Admit("a") && q[1].kind == Admit("b")
  {
  }

  lemma TwoAdmissions(e: Engine, cfg: Config)
    requires Ready(e.c, Crowded()) && cfg.policy == Lru && cfg.capacity == STATE_BYTES
    requires e.c.resident == map[] && e.c.truth.Keys == {"a", "b"} && forall s :: s in e.c.truth ==> e.c.truth[s].valid
    requires |Arrivals()| == 3
    requires forall i :: 0 <= i < 2 ==> KnownNames(Crowded(), Arrivals()[..2][i].kind)
    ensures var two := PassOver(e, Crowded(), cfg, Admitting, Arrivals()[..2]); two.c.resident.Keys == {"a", "b"}
  {
    hide PassStep, PassOver, Ready, KnownNames, Crowded, Arrivals;
    FirstTwo();
    var q, p := Arrivals(), Crowded();
    Admitted(e, cfg, q[0]);
    Admitted(PassStep(e, p, cfg, Admitting, q[0]), cfg, q[1]);
    PassOfTwo(e, p, cfg, Admitting, q[0], q[1]);
  }

  lemma RepeatedAdmitOvertaken(two: Engine, cfg: Config)
    requires Ready(two.c, Crowded()) && cfg.capacity == STATE_BYTES && two.c.resident.Keys == {"a", "b"}
    ensures KnownNames(Crowded(), Admit("a")) && Overtaken(two, Crowded(), cfg, Arrivals()[2])
  {
    assert |two.c.resident.Keys| == 2;
  }

  lemma CrowdedAtAdmission(cfg: Config)
    requires Configured(cfg) && cfg.policy == Lru && Ready(Start(Crowded()).c, Crowded())
    requires forall i :: 0 <= i < 3 ==> KnownNames(Crowded(), Arrivals()[i].kind)
    ensures var c := AtAdmission(Start(Crowded()), Crowded(), cfg, Arrivals(), 0.0).c;
            c.resident == map[] && c.truth.Keys == {"a", "b"} && forall s :: s in c.truth ==> c.truth[s].valid
  {
    var p, q, e := Crowded(), Arrivals(), Start(Crowded());
    hide PassOver, PolicyReleases, TtlExpiries, PassStep;
    QuietPass(e, p, cfg, Invalidating, q);
    QuietPass(e, p, cfg, Updating, q);
    LruReleasesNothing(e, p, cfg, 0.0);
    QuietPass(TtlExpiries(PolicyReleases(e, p, cfg, 0.0), cfg, 0.0), p, cfg, Reusing, q);
  }

  lemma CrowdedNames()
    ensures Ready(Start(Crowded()).c, Crowded())
    ensures forall i :: 0 <= i < 3 ==> KnownNames(Crowded(), Arrivals()[i].kind)
  {
  }

  lemma CrowdedTrips(cfg: Config)
    requires Configured(cfg) && cfg.policy == Lru && cfg.capacity == STATE_BYTES
    requires Turn(FirstTurn(Crowded()), Crowded(), cfg, [0.0])
    ensures AdvanceTrips(FirstTurn(Crowded()), Crowded(), cfg, [0.0], 0.0)
  {
    hide PassOver, AtAdmission, Overtaken, Turn, Crowded, Arrivals, Ready, KnownNames, Batch, Start;
    var p, q := Crowded(), Arrivals();
    CrowdedBatch();
    CrowdedNames();
    ThreeArrivals();
    CrowdedAtAdmission(cfg);
    var e := AtAdmission(Start(p), p, cfg, q, 0.0);
    TwoAdmissions(e, cfg);
    RepeatedAdmitOvertaken(PassOver(e, p, cfg, Admitting, q[..2]), cfg);
  }

  lemma ThreeArrivals()
    ensures |Arrivals()| == 3 && Crowded().start == 0.0
  {
  }

  /** With room for one State, the repeated ADMIT finds two resident, is skipped and its record raises. */
  lemma CrowdedRaises(cfg: Config)
    requires Configured(cfg) && cfg.policy == Lru && cfg.capacity == STATE_BYTES
    ensures WellFormedCase(Crowded()) && RunProgram(Crowded(), cfg).failed
  {
    var p, l := Crowded(), FirstTurn(Crowded());
    CrowdedIsWellFormed();
    CrowdedTimes();
    FirstTurnClock(p, cfg);
    LruNext(l, p, cfg, [0.0]);
    hide Arrivals, WellFormedCase, AdvanceTrips, RunProgram;
    CrowdedTrips(cfg);
    RaisesExactlyWhenOvertaken(p, cfg);
  }
}
