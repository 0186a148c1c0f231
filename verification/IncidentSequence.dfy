/** One active impact per target and nature, and resumptions that match resolutions one for one. */
module IncidentSequence {
  import opened Common
  import opened IncidentModel
  import opened IncidentCycle
  import opened IncidentInvariants
  import opened IncidentAggregates
  import opened IncidentIdentities
  import opened IncidentPlacement

  // ----- The properties -----

  /** What distinguishes two incidents on a target. */
  datatype Spot = Spot(target: string, nature: string)

  function SpotOf(db: Db, p: Id): Spot
    requires p in db.impacts && db.impacts[p].incident in db.incidents
  {
    Spot(db.impacts[p].target, db.incidents[db.impacts[p].incident].nature.key)
  }

  predicate OpenAt(db: Db, p: Id)
  {
    p in db.impacts && db.impacts[p].status == Active && db.impacts[p].incident in db.incidents
  }

  /** A target has at most one active impact of a nature. */
  ghost predicate OnePerNature(db: Db)
  {
    forall p, q :: OpenAt(db, p) && OpenAt(db, q) && SpotOf(db, p) == SpotOf(db, q) ==> p == q
  }

  /** Every resolution of an incident but a current one has been answered by one resumption. */
  predicate Balanced(impacts: map<Id, Impact>, i: Id, row: Incident)
  {
    row.resolutions == row.resumptions + if row.status == Resolved && ActiveOf(impacts, i) == {} then 1 else 0
  }

  ghost predicate AllBalanced(db: Db)
  {
    forall i :: i in db.incidents ==> Balanced(db.impacts, i, db.incidents[i])
  }

  /** The nature key is a function of what identifies a nature across targets. */
  ghost predicate Coherent(db: Db, keyOf: (string, string, string) -> string)
  {
    forall i :: i in db.incidents ==> CoherentNature(db.incidents[i].nature, keyOf)
  }

  predicate CoherentNature(n: Nature, keyOf: (string, string, string) -> string)
  {
    n.eligible ==> n.key == keyOf(n.scope, n.namespace, n.fingerprint)
  }

  // ----- What holds between the statements of a transaction -----

  /** An impact is active exactly while evidence sustains it. */
  ghost predicate Sustained(db: Db, skip: set<Id>)
  {
    forall p :: p in db.impacts && p !in skip ==>
      (db.impacts[p].status == Active <==> exists e :: e in db.evidence && Sustains(db.evidence[e], p))
  }

  /** Resumed incidents not yet recomputed sit on spots already reported. */
  ghost predicate Stale(db: Db, done: set<Spot>)
  {
    forall p :: OpenAt(db, p) && db.incidents[db.impacts[p].incident].status == Resolved ==> SpotOf(db, p) in done
  }

  /** Their evidence has been reported by the snapshot under way. */
  ghost predicate Vouched(db: Db, seen: set<Identity>)
  {
    forall e :: e in db.evidence && db.evidence[e].active && db.evidence[e].incident in db.incidents ==>
      db.incidents[db.evidence[e].incident].status == Active || db.evidence[e].identity in seen
  }

  /** Resolved incidents know how many impacts they have. */
  ghost predicate Tallied(db: Db)
  {
    forall i :: i in db.incidents && db.incidents[i].status == Resolved ==>
      db.incidents[i].impactCount == |ImpactsOf(db.impacts, i)|
  }

  ghost predicate Flow(db: Db, done: set<Spot>, seen: set<Identity>)
  {
    Sustained(db, {}) && Stale(db, done) && Vouched(db, seen) && Tallied(db) && AllBalanced(db)
  }

  lemma OpenIsActive(db: Db, p: Id)
    requires Clean(db, {}, {}) && OpenAt(db, p)
    ensures db.incidents[db.impacts[p].incident].status == Active
  {
    var i := db.impacts[p].incident;
    assert IncidentAgrees(db.impacts, i, db.incidents[i]);
    assert p in ActiveOf(db.impacts, i);
  }

  /** A clean state with balanced incidents is where a transaction starts. */
  lemma FlowStarts(db: Db)
    requires Shape(db) && Clean(db, {}, {}) && AllBalanced(db)
    ensures Flow(db, {}, {})
  {
    hide ImpactRow, IncidentRow;
    forall p | OpenAt(db, p)
      ensures db.incidents[db.impacts[p].incident].status == Active
    {
      OpenIsActive(db, p);
    }
    VouchedStarts(db);
    CleanStarts(db);
  }

  lemma VouchedStarts(db: Db)
    requires Shape(db) && Clean(db, {}, {})
    ensures Vouched(db, {})
  {
    hide ImpactRow, IncidentRow, IncidentAgrees;
    forall e | e in db.evidence && db.evidence[e].active
      ensures db.incidents[db.evidence[e].incident].status == Active
    {
      var p := db.evidence[e].impact;
      assert Sustains(db.evidence[e], p) && ImpactAgrees(db.evidence, p, db.impacts[p]);
      OpenIsActive(db, p);
    }
  }

  lemma CleanStarts(db: Db)
    requires Clean(db, {}, {})
    ensures Sustained(db, {}) && Tallied(db)
  {
    forall p | p in db.impacts
      ensures db.impacts[p].status == Active <==> exists e :: e in db.evidence && Sustains(db.evidence[e], p)
    {
      assert ImpactAgrees(db.evidence, p, db.impacts[p]);
    }
    forall i | i in db.incidents
      ensures db.incidents[i].impactCount == |ImpactsOf(db.impacts, i)|
    {
      assert IncidentAgrees(db.impacts, i, db.incidents[i]);
    }
  }

  // ----- Statements that leave impacts and lifecycles alone -----

  predicate SameCycle(row: Incident, row2: Incident)
  {
    && row2.nature == row.nature && row2.status == row.status && row2.impactCount == row.impactCount
    && row2.resumptions == row.resumptions && row2.resolutions == row.resolutions
  }

  ghost predicate Still(db: Db, db2: Db)
  {
    && db2.impacts == db.impacts && db2.incidents.Keys == db.incidents.Keys
    && (forall i :: i in db.incidents ==> SameCycle(db.incidents[i], db2.incidents[i]))
    && SameStandings(db.evidence, db2.evidence)
  }

  lemma StillSustained(db: Db, db2: Db, skip: set<Id>)
    requires Sustained(db, skip) && Still(db, db2)
    ensures Sustained(db2, skip)
  {
    forall e | e in db.evidence
      ensures forall p :: Sustains(db.evidence[e], p) == Sustains(db2.evidence[e], p)
    {
      assert SameStanding(db.evidence[e], db2.evidence[e]);
    }
  }

  lemma StillFlow(db: Db, db2: Db, done: set<Spot>, seen: set<Identity>)
    requires Flow(db, done, seen) && Still(db, db2)
    ensures Flow(db2, done, seen)
  {
    StillSustained(db, db2, {});
    forall i | i in db2.incidents
      ensures SameCycle(db.incidents[i], db2.incidents[i]) && Balanced(db2.impacts, i, db2.incidents[i])
    {
      assert SameCycle(db.incidents[i], db2.incidents[i]) && Balanced(db.impacts, i, db.incidents[i]);
    }
    forall p | OpenAt(db2, p)
      ensures OpenAt(db, p) && SpotOf(db2, p) == SpotOf(db, p)
    {
    }
    forall e | e in db2.evidence
      ensures SameStanding(db.evidence[e], db2.evidence[e])
    {
    }
  }

  lemma AckOnlyStill(db: Db, db2: Db)
    requires AckOnly(db, db2)
    ensures Still(db, db2)
  {
    AckOnlyStandings(db, db2);
    forall i | i in db.incidents
      ensures SameCycle(db.incidents[i], db2.incidents[i])
    {
      assert SameButAck(db.incidents[i], db2.incidents[i]);
    }
  }

  lemma StillTrans(a: Db, b: Db, c: Db)
    requires Still(a, b) && Still(b, c)
    ensures Still(a, c)
  {
    forall i | i in a.incidents
      ensures SameCycle(a.incidents[i], c.incidents[i])
    {
      assert SameCycle(a.incidents[i], b.incidents[i]);
    }
    forall e | e in a.evidence
      ensures SameStanding(a.evidence[e], c.evidence[e])
    {
      assert SameStanding(a.evidence[e], b.evidence[e]);
    }
  }

  lemma RefreshStill(db: Db, e: Id, f: Fact, now: Time)
    requires ValidSeverity(f.severity) && e in db.evidence && Linked(db)
    ensures Still(db, Refresh(db, e, f, now))
  {
    var refreshed := RefreshRow(db, e, f);
    assert Still(db, refreshed);
    if f.upstream {
      AckFromEvidenceOnly(refreshed, db.evidence[e].incident, now);
      AckOnlyStill(refreshed, Refresh(db, e, f, now));
      StillTrans(db, refreshed, Refresh(db, e, f, now));
    }
  }

  // ----- Closing evidence -----

  /** No open impact appears and none changes spot. */
  ghost predicate Shrinks(db: Db, db2: Db)
  {
    forall p :: OpenAt(db2, p) ==> OpenAt(db, p) && SpotOf(db2, p) == SpotOf(db, p)
  }

  lemma ShrinksOne(db: Db, db2: Db)
    requires OnePerNature(db) && Shrinks(db, db2)
    ensures OnePerNature(db2)
  {
  }

  lemma ShrinksTrans(a: Db, b: Db, c: Db)
    requires Shrinks(a, b) && Shrinks(b, c)
    ensures Shrinks(a, c)
  {
  }

  /** Flow with the impacts `skip`, none of them in a resolved incident, possibly no longer sustained. */
  ghost predicate Draining(db: Db, skip: set<Id>, done: set<Spot>, seen: set<Identity>)
  {
    && Sustained(db, skip) && Stale(db, done) && Vouched(db, seen) && Tallied(db) && AllBalanced(db)
    && (forall p :: p in db.impacts && p in skip && db.impacts[p].incident in db.incidents ==>
          db.incidents[db.impacts[p].incident].status == Active)
    && (forall e :: e in db.evidence && Sustains(db.evidence[e], db.evidence[e].impact) && db.evidence[e].impact in db.impacts ==>
          db.impacts[db.evidence[e].impact].status == Active)
  }

  /** Evidence that the snapshot has not reported does not belong to a resumed incident. */
  lemma UnreportedIsActive(db: Db, e: Id, done: set<Spot>, seen: set<Identity>)
    requires Flow(db, done, seen) && Linked(db) && e in db.evidence && db.evidence[e].active && db.evidence[e].identity !in seen
    ensures db.incidents[db.evidence[e].incident].status == Active
  {
  }

  /** The rows `es` are closed; every other row is as it was. */
  ghost predicate Deactivated(db: Db, db2: Db, es: set<Id>)
  {
    && db2 == db.(evidence := db2.evidence) && db2.evidence.Keys == db.evidence.Keys
    && (forall e :: e in db.evidence && e !in es ==> db2.evidence[e] == db.evidence[e])
    && (forall e :: e in es && e in db.evidence ==> !db2.evidence[e].active)
  }

  lemma DeactivatedDrains(db: Db, db2: Db, es: set<Id>, done: set<Spot>, seen: set<Identity>)
    requires Flow(db, done, seen) && Shape(db) && Deactivated(db, db2, es)
    requires forall e :: e in es ==> e in db.evidence && db.evidence[e].active && db.evidence[e].identity !in seen
    ensures Draining(db2, ImpactsTouching(db, es), done, seen)
  {
    ShapeLinks(db);
    forall e | e in es
      ensures db.incidents[db.evidence[e].incident].status == Active
    {
      UnreportedIsActive(db, e, done, seen);
    }
    DeactivatedSustained(db, db2, es);
    forall p | OpenAt(db2, p)
      ensures OpenAt(db, p) && SpotOf(db2, p) == SpotOf(db, p)
    {
    }
  }

  lemma DeactivatedSustained(db: Db, db2: Db, es: set<Id>)
    requires Sustained(db, {}) && Deactivated(db, db2, es)
    ensures Sustained(db2, ImpactsTouching(db, es))
    ensures forall e :: e in db2.evidence && Sustains(db2.evidence[e], db2.evidence[e].impact) && db2.evidence[e].impact in db2.impacts ==>
      db2.impacts[db2.evidence[e].impact].status == Active
  {
    forall p | p in db2.impacts && p !in ImpactsTouching(db, es)
      ensures db2.impacts[p].status == Active <==> exists e :: e in db2.evidence && Sustains(db2.evidence[e], p)
    {
      if e :| e in db.evidence && Sustains(db.evidence[e], p) {
        assert e !in es;
        assert Sustains(db2.evidence[e], p);
      }
      if e :| e in db2.evidence && Sustains(db2.evidence[e], p) {
        assert Sustains(db.evidence[e], p);
      }
    }
    forall e | e in db2.evidence && Sustains(db2.evidence[e], db2.evidence[e].impact) && db2.evidence[e].impact in db2.impacts
      ensures db2.impacts[db2.evidence[e].impact].status == Active
    {
      assert e !in es && Sustains(db.evidence[e], db.evidence[e].impact);
    }
  }

  lemma DerivedStatus(evidence: map<Id, Evidence>, p: Id, row: Impact, now: Time)
    ensures DerivedImpact(evidence, p, row, now).status == Active <==> exists e :: e in evidence && Sustains(evidence[e], p)
    ensures DerivedImpact(evidence, p, row, now).incident == row.incident
    ensures DerivedImpact(evidence, p, row, now).target == row.target
  {
    if e :| e in evidence && Sustains(evidence[e], p) {
      assert evidence[e].severity in LiveSeverities(evidence, p);
    }
  }

  /** Recomputing drained impacts only closes impacts of active incidents. */
  lemma RecomputeImpactsStatus(db: Db, ps: set<Id>, skip: set<Id>, done: set<Spot>, seen: set<Identity>, now: Time)
    requires Draining(db, skip, done, seen) && skip <= ps
    ensures var db2 := RecomputeImpacts(db, ps, now);
      && Sustained(db2, {})
      && (forall p :: p in db.impacts ==>
            && db2.impacts[p].incident == db.impacts[p].incident && db2.impacts[p].target == db.impacts[p].target
            && (p !in skip ==> db2.impacts[p].status == db.impacts[p].status)
            && (db2.impacts[p].status == Active ==> db.impacts[p].status == Active))
  {
    var db2 := RecomputeImpacts(db, ps, now);
    forall p | p in db.impacts
      ensures db2.impacts[p].status == Active <==> exists e :: e in db.evidence && Sustains(db.evidence[e], p)
      ensures db2.impacts[p].incident == db.impacts[p].incident && db2.impacts[p].target == db.impacts[p].target
      ensures db2.impacts[p].status == Active ==> db.impacts[p].status == Active
      ensures p !in skip ==> db2.impacts[p].status == db.impacts[p].status
    {
      DerivedStatus(db.evidence, p, db.impacts[p], now);
    }
  }

  lemma RecomputeImpactsFlow(db: Db, ps: set<Id>, skip: set<Id>, done: set<Spot>, seen: set<Identity>, now: Time)
    requires Draining(db, skip, done, seen) && skip <= ps
    ensures var db2 := RecomputeImpacts(db, ps, now); Flow(db2, done, seen) && Shrinks(db, db2)
  {
    var db2 := RecomputeImpacts(db, ps, now);
    RecomputeImpactsStatus(db, ps, skip, done, seen, now);
    forall i | i in db.incidents
      ensures Balanced(db2.impacts, i, db2.incidents[i])
      ensures ImpactsOf(db2.impacts, i) == ImpactsOf(db.impacts, i)
    {
      assert Balanced(db.impacts, i, db.incidents[i]);
      if db.incidents[i].status == Resolved {
        assert ActiveOf(db2.impacts, i) == ActiveOf(db.impacts, i);
      }
    }
    assert forall p :: OpenAt(db2, p) ==> OpenAt(db, p) && SpotOf(db2, p) == SpotOf(db, p);
  }

  lemma AggregatedBalanced(impacts: map<Id, Impact>, live: int, i: Id, row: Incident, now: Time)
    requires Balanced(impacts, i, row) && IncidentRow(row)
    ensures Balanced(impacts, i, Aggregated(impacts, live, i, row, now))
    ensures Aggregated(impacts, live, i, row, now).nature == row.nature
  {
  }

  lemma AggregatedStatus(evidence: map<Id, Evidence>, impacts: map<Id, Impact>, live: int, i: Id, row: Incident,
      now: Time)
    ensures var row2 := WithSync(evidence, i, Aggregated(impacts, live, i, row, now));
      && row2.impactCount == |ImpactsOf(impacts, i)| && row2.nature == row.nature
      && (row2.status == Resolved ==> ActiveOf(impacts, i) == {})
  {
  }

  /** A closed incident with an active impact is active, and has neither resolved nor resumed. */
  lemma AggregatedAlive(evidence: map<Id, Evidence>, impacts: map<Id, Impact>, live: int, i: Id, row: Incident, now: Time)
    requires row.propagation == Closed && ActiveOf(impacts, i) != {}
    ensures var row2 := WithSync(evidence, i, Aggregated(impacts, live, i, row, now));
      row2.status == Active && row2.resumptions == row.resumptions && row2.resolutions == row.resolutions && row2.propagation == Closed
  {
  }

  /** Recomputing incidents settles their status and their balance. */
  lemma RecomputeIncidentsFlow(db: Db, ns: set<Id>, done: set<Spot>, seen: set<Identity>, now: Time)
    requires Flow(db, done, seen) && Shape(db)
    ensures var db2 := RecomputeIncidents(db, ns, now); Flow(db2, done, seen) && Shrinks(db, db2)
  {
    var db2, live := RecomputeIncidents(db, ns, now), LiveTargetCount(db.targets);
    forall i | i in db.incidents
      ensures Balanced(db2.impacts, i, db2.incidents[i]) && db2.incidents[i].nature == db.incidents[i].nature
      ensures db2.incidents[i].status == Resolved && i in ns ==> ActiveOf(db.impacts, i) == {}
      ensures i in ns ==> db2.incidents[i].impactCount == |ImpactsOf(db.impacts, i)|
      ensures i !in ns ==> db2.incidents[i] == db.incidents[i]
    {
      assert Balanced(db.impacts, i, db.incidents[i]) && IncidentRow(db.incidents[i]);
      AggregatedBalanced(db.impacts, live, i, db.incidents[i], now);
      AggregatedStatus(db.evidence, db.impacts, live, i, db.incidents[i], now);
    }
    RecomputedFlow(db, db2, ns, done, seen);
  }

  lemma RecomputedFlow(db: Db, db2: Db, ns: set<Id>, done: set<Spot>, seen: set<Identity>)
    requires Flow(db, done, seen) && Shape(db)
    requires db2.impacts == db.impacts && db2.evidence == db.evidence && db2.incidents.Keys == db.incidents.Keys
    requires forall i :: i in db.incidents ==>
      && Balanced(db2.impacts, i, db2.incidents[i]) && db2.incidents[i].nature == db.incidents[i].nature
      && (db2.incidents[i].status == Resolved && i in ns ==> ActiveOf(db.impacts, i) == {})
      && (i in ns ==> db2.incidents[i].impactCount == |ImpactsOf(db.impacts, i)|)
      && (i !in ns ==> db2.incidents[i] == db.incidents[i])
    ensures Flow(db2, done, seen) && Shrinks(db, db2)
  {
    assert forall p :: OpenAt(db2, p) ==> OpenAt(db, p) && SpotOf(db2, p) == SpotOf(db, p);
    RecomputeIncidentsStale(db, db2, ns, done, seen);
  }

  lemma RecomputeIncidentsStale(db: Db, db2: Db, ns: set<Id>, done: set<Spot>, seen: set<Identity>)
    requires Sustained(db, {}) && Stale(db, done) && Vouched(db, seen) && Shape(db)
    requires db2.impacts == db.impacts && db2.evidence == db.evidence && db2.incidents.Keys == db.incidents.Keys
    requires forall i :: i in db.incidents ==>
      && db2.incidents[i].nature == db.incidents[i].nature && (i !in ns ==> db2.incidents[i] == db.incidents[i])
      && (db2.incidents[i].status == Resolved && i in ns ==> ActiveOf(db.impacts, i) == {})
    ensures Stale(db2, done) && Vouched(db2, seen)
  {
    forall p | OpenAt(db2, p) && db2.incidents[db2.impacts[p].incident].status == Resolved
      ensures SpotOf(db2, p) in done
    {
      assert p in ActiveOf(db.impacts, db.impacts[p].incident);
      assert OpenAt(db, p);
    }
    forall e | e in db2.evidence && db2.evidence[e].active && db2.incidents[db2.evidence[e].incident].status == Resolved
      ensures db2.evidence[e].identity in seen
    {
      var p := db.evidence[e].impact;
      assert Sustains(db.evidence[e], p);
      assert p in ActiveOf(db.impacts, db.evidence[e].incident);
    }
  }

  lemma SettleFlow(db: Db, ps: set<Id>, ns: set<Id>, skip: set<Id>, done: set<Spot>, seen: set<Identity>, now: Time)
    requires Draining(db, skip, done, seen) && skip <= ps && Shape(db)
    ensures var db2 := Settle(db, ps, ns, now); Flow(db2, done, seen) && Shrinks(db, db2)
  {
    var db1 := RecomputeImpacts(db, ps, now);
    RecomputeImpactsFlow(db, ps, skip, done, seen, now);
    RecomputeImpactsShape(db, ps, now);
    RecomputeIncidentsFlow(db1, ns, done, seen, now);
    ShrinksTrans(db, db1, Settle(db, ps, ns, now));
  }

  lemma RetireFlow(db: Db, e: Id, done: set<Spot>, seen: set<Identity>, now: Time)
    requires Flow(db, done, seen) && Shape(db) && e in db.evidence && db.evidence[e].active && db.evidence[e].identity !in seen
    ensures var db2 := Retire(db, e, now); Flow(db2, done, seen) && Shrinks(db, db2)
  {
    hide Flow, Shape, Draining, Settle;
    var db1, p := ResolveRows(db, {e}, now), db.evidence[e].impact;
    assert ImpactsTouching(db, {e}) == {p};
    assert Deactivated(db, db1, {e});
    DeactivatedDrains(db, db1, {e}, done, seen);
    ResolveRowsShape(db, {e}, now);
    SettleFlow(db1, {p}, {db.evidence[e].incident}, {p}, done, seen, now);
    ShrinksTrans(db, db1, Retire(db, e, now));
  }

  // ----- Opening an impact -----

  /** `p` opens at `spot`; no other impact opens or changes spot. */
  ghost predicate Opens(db: Db, db2: Db, p: Id, spot: Spot)
  {
    && OpenAt(db2, p) && SpotOf(db2, p) == spot
    && (forall q :: OpenAt(db2, q) && q != p ==> OpenAt(db, q) && SpotOf(db2, q) == SpotOf(db, q))
  }

  ghost predicate Vacant(db: Db, spot: Spot)
  {
    forall q :: OpenAt(db, q) ==> SpotOf(db, q) != spot
  }

  /** A spot that was not reported before and hosts no active incident has no open impact at all. */
  lemma UnhostedIsVacant(db: Db, f: Fact, done: set<Spot>)
    requires Stale(db, done) && ActiveImpact(db, f).None? && Spot(f.target, f.nature.key) !in done
    ensures Vacant(db, Spot(f.target, f.nature.key))
  {
    forall q | OpenAt(db, q)
      ensures SpotOf(db, q) != Spot(f.target, f.nature.key)
    {
      if SpotOf(db, q) == Spot(f.target, f.nature.key) {
        assert db.incidents[db.impacts[q].incident].status == Active;
        assert Hosts(db, q, f.target, f.nature.key);
      }
    }
  }

  lemma OpensOne(db: Db, db2: Db, p: Id, spot: Spot)
    requires OnePerNature(db) && Opens(db, db2, p, spot) && Vacant(db, spot)
    ensures OnePerNature(db2)
  {
    forall q, r | OpenAt(db2, q) && OpenAt(db2, r) && SpotOf(db2, q) == SpotOf(db2, r)
      ensures q == r
    {
      assert q != p ==> OpenAt(db, q);
      assert r != p ==> OpenAt(db, r);
    }
  }

  /** Flow with impact `p` open at `spot` but not sustained yet. */
  ghost predicate Opening(db: Db, p: Id, spot: Spot, done: set<Spot>, seen: set<Identity>)
  {
    && OpenAt(db, p) && SpotOf(db, p) == spot
    && Sustained(db, {p}) && Stale(db, done + {spot}) && Vouched(db, seen) && Tallied(db) && AllBalanced(db)
  }

  lemma HostedOpening(db: Db, p: Id, f: Fact, done: set<Spot>, seen: set<Identity>)
    requires Flow(db, done, seen) && Hosts(db, p, f.target, f.nature.key)
    ensures Opening(db, p, Spot(f.target, f.nature.key), done, seen)
  {
  }

  /** What a spot needs to be opened: every impact but `p` keeps its row. */
  ghost predicate SameBut(impacts: map<Id, Impact>, impacts2: map<Id, Impact>, p: Id)
  {
    && (forall q :: q in impacts2 && q != p ==> q in impacts && impacts2[q] == impacts[q])
    && (forall q :: q in impacts && q != p ==> q in impacts2)
  }

  lemma SameButActive(impacts: map<Id, Impact>, impacts2: map<Id, Impact>, p: Id, j: Id)
    requires SameBut(impacts, impacts2, p) && p in impacts2 && impacts2[p].incident != j && (p in impacts ==> impacts[p].incident != j)
    ensures ActiveOf(impacts2, j) == ActiveOf(impacts, j) && ImpactsOf(impacts2, j) == ImpactsOf(impacts, j)
  {
    assert forall q :: q in impacts && impacts[q].incident == j ==> q != p && q in impacts2 && impacts2[q] == impacts[q];
  }

  lemma JoinOpens(db: Db, i: Id, f: Fact)
    requires Shape(db) && ValidSeverity(f.severity) && i in db.incidents && Propagates(db.incidents[i], f)
    requires db.incidents[i].nature.key == f.nature.key
    ensures var o := Join(db, i, f);
      && SameBut(db.impacts, o.db.impacts, o.impact) && Opens(db, o.db, o.impact, Spot(f.target, f.nature.key))
      && o.db.impacts[o.impact].incident == i && (o.impact in db.impacts ==> db.impacts[o.impact].incident == i)
      && o.db.evidence == db.evidence && o.db.incidents.Keys == db.incidents.Keys
      && (forall j :: j in db.incidents ==> SameCycle(db.incidents[j], o.db.incidents[j]))
  {
    hide SameBut, Opens, SameCycle, Slid;
    match ImpactOn(db.impacts, i, f.target)
    case Some(p) => RejoinOpens(db, i, p, f);
    case None => SpreadOpens(db, i, f);
  }

  lemma RejoinOpens(db: Db, i: Id, p: Id, f: Fact)
    requires ValidSeverity(f.severity) && i in db.incidents && p in db.impacts && db.impacts[p].incident == i
    requires db.impacts[p].target == f.target && db.incidents[i].nature.key == f.nature.key
    ensures var db2 := Rejoin(db, i, p, f).db;
      && SameBut(db.impacts, db2.impacts, p) && Opens(db, db2, p, Spot(f.target, f.nature.key)) && db2.impacts[p].incident == i
      && db2.evidence == db.evidence && db2.incidents.Keys == db.incidents.Keys
      && (forall j :: j in db.incidents ==> SameCycle(db.incidents[j], db2.incidents[j]))
  {
    hide EvidenceWindow;
  }

  lemma SpreadOpens(db: Db, i: Id, f: Fact)
    requires Shape(db) && ValidSeverity(f.severity) && i in db.incidents && db.incidents[i].nature.key == f.nature.key
    ensures var db2 := Spread(db, i, f).db;
      && SameBut(db.impacts, db2.impacts, db.next) && Opens(db, db2, db.next, Spot(f.target, f.nature.key))
      && db2.impacts[db.next].incident == i && db.next !in db.impacts
      && db2.evidence == db.evidence && db2.incidents.Keys == db.incidents.Keys
      && (forall j :: j in db.incidents ==> SameCycle(db.incidents[j], db2.incidents[j]))
  {
    hide EvidenceWindow, ImpactRow, EvidenceRow, IncidentRow;
  }

  lemma JoinOpening(db: Db, i: Id, f: Fact, done: set<Spot>, seen: set<Identity>)
    requires Flow(db, done, seen) && Shape(db) && ValidSeverity(f.severity) && i in db.incidents
    requires Propagates(db.incidents[i], f) && db.incidents[i].nature.key == f.nature.key
    ensures var o := Join(db, i, f); Opening(o.db, o.impact, Spot(f.target, f.nature.key), done, seen)
  {
    var o := Join(db, i, f);
    JoinOpens(db, i, f);
    ActiveIncidentOpening(db, o.db, i, o.impact, Spot(f.target, f.nature.key), done, seen);
  }

  /** Opening an impact of an active incident. */
  lemma ActiveIncidentOpening(db: Db, db2: Db, i: Id, p: Id, spot: Spot, done: set<Spot>, seen: set<Identity>)
    requires Flow(db, done, seen) && i in db.incidents && db.incidents[i].status == Active
    requires SameBut(db.impacts, db2.impacts, p) && Opens(db, db2, p, spot)
    requires db2.impacts[p].incident == i && (p in db.impacts ==> db.impacts[p].incident == i)
    requires db2.evidence == db.evidence && db2.incidents.Keys == db.incidents.Keys
    requires forall j :: j in db.incidents ==> SameCycle(db.incidents[j], db2.incidents[j])
    ensures Opening(db2, p, spot, done, seen)
  {
    forall j | j in db2.incidents
      ensures Balanced(db2.impacts, j, db2.incidents[j])
      ensures db2.incidents[j].status == Resolved ==> ImpactsOf(db2.impacts, j) == ImpactsOf(db.impacts, j)
      ensures SameCycle(db.incidents[j], db2.incidents[j])
    {
      assert Balanced(db.impacts, j, db.incidents[j]) && SameCycle(db.incidents[j], db2.incidents[j]);
      if j != i {
        SameButActive(db.impacts, db2.impacts, p, j);
      }
    }
    forall q | OpenAt(db2, q) && db2.incidents[db2.impacts[q].incident].status == Resolved
      ensures SpotOf(db2, q) in done + {spot}
    {
      assert q != p && OpenAt(db, q);
    }
  }

  lemma ResumeBalanced(db: Db, p: Id, f: Fact, now: Time)
    requires Tallied(db) && AllBalanced(db) && ValidSeverity(f.severity) && p in db.impacts
    requires db.impacts[p].incident in db.incidents && db.incidents[db.impacts[p].incident].status == Resolved
    requires ActiveOf(db.impacts, db.impacts[p].incident) == {}
    ensures var o := Resume(db, p, f, now); Tallied(o.db) && AllBalanced(o.db)
  {
    var o, i := Resume(db, p, f, now), db.impacts[p].incident;
    forall j | j in db.incidents
      ensures Balanced(o.db.impacts, j, o.db.incidents[j])
      ensures ImpactsOf(o.db.impacts, j) == ImpactsOf(db.impacts, j)
    {
      assert Balanced(db.impacts, j, db.incidents[j]);
      if j != i {
        SameButActive(db.impacts, o.db.impacts, p, j);
      } else {
        assert p in ActiveOf(o.db.impacts, i);
      }
    }
  }

  lemma ResumeOpens(db: Db, p: Id, f: Fact, now: Time)
    requires ValidSeverity(f.severity) && Bears(db, p, f.target, f.nature.key)
    ensures Opens(db, Resume(db, p, f, now).db, p, Spot(f.target, f.nature.key))
  {
  }

  lemma ResumeSustained(db: Db, p: Id, f: Fact, done: set<Spot>, seen: set<Identity>, now: Time)
    requires Sustained(db, {}) && Stale(db, done) && Vouched(db, seen) && ValidSeverity(f.severity)
    requires Bears(db, p, f.target, f.nature.key)
    ensures var db2 := Resume(db, p, f, now).db;
      Sustained(db2, {p}) && Stale(db2, done + {Spot(f.target, f.nature.key)}) && Vouched(db2, seen)
  {
    var db2 := Resume(db, p, f, now).db;
    ResumeOpens(db, p, f, now);
    forall q | OpenAt(db2, q) && db2.incidents[db2.impacts[q].incident].status == Resolved
      ensures SpotOf(db2, q) in done + {Spot(f.target, f.nature.key)}
    {
      assert q == p || OpenAt(db, q);
    }
  }

  lemma ResumeOpening(db: Db, p: Id, f: Fact, done: set<Spot>, seen: set<Identity>, now: Time)
    requires Flow(db, done, seen) && ValidSeverity(f.severity)
    requires Resumable(db, p, f, now) && Vacant(db, Spot(f.target, f.nature.key))
    ensures Opening(Resume(db, p, f, now).db, p, Spot(f.target, f.nature.key), done, seen)
  {
    SoleImpact(db, p, db.impacts[p].incident);
    ResumeBalanced(db, p, f, now);
    ResumeOpens(db, p, f, now);
    ResumeSustained(db, p, f, done, seen, now);
  }

  /** A resolved incident with one impact, on a vacant spot, has no open impact. */
  lemma SoleImpact(db: Db, p: Id, i: Id)
    requires Tallied(db) && p in db.impacts && db.impacts[p].incident == i && i in db.incidents
    requires db.incidents[i].status == Resolved && db.incidents[i].impactCount == 1 && Vacant(db, SpotOf(db, p))
    ensures ActiveOf(db.impacts, i) == {}
  {
    var ps := ImpactsOf(db.impacts, i);
    assert p in ps && |ps - {p}| == 0;
    assert ps == {p};
    assert !OpenAt(db, p);
    assert forall q :: q in ActiveOf(db.impacts, i) ==> q in ps;
  }

  lemma CreateBalanced(db: Db, f: Fact, now: Time)
    requires Shape(db) && Tallied(db) && AllBalanced(db) && ValidSeverity(f.severity)
    ensures var o := Create(db, f, now); Tallied(o.db) && AllBalanced(o.db)
  {
    var o := Create(db, f, now);
    forall j | j in o.db.incidents
      ensures Balanced(o.db.impacts, j, o.db.incidents[j])
      ensures j in db.incidents ==> ImpactsOf(o.db.impacts, j) == ImpactsOf(db.impacts, j)
    {
      if j in db.incidents {
        assert Balanced(db.impacts, j, db.incidents[j]);
        SameButActive(db.impacts, o.db.impacts, o.impact, j);
      }
    }
  }

  lemma CreateOpens(db: Db, f: Fact, now: Time)
    requires Shape(db) && ValidSeverity(f.severity)
    ensures Opens(db, Create(db, f, now).db, db.next + 1, Spot(f.target, f.nature.key))
  {
  }

  lemma CreateStale(db: Db, f: Fact, done: set<Spot>, seen: set<Identity>, now: Time)
    requires Shape(db) && Stale(db, done) && Vouched(db, seen) && ValidSeverity(f.severity)
    ensures var db2 := Create(db, f, now).db; Stale(db2, done) && Vouched(db2, seen)
  {
    CreateOpens(db, f, now);
    var db2 := Create(db, f, now).db;
    forall q | OpenAt(db2, q) && db2.incidents[db2.impacts[q].incident].status == Resolved
      ensures SpotOf(db2, q) in done
    {
      assert q != db.next + 1 && OpenAt(db, q);
    }
  }

  lemma CreateOpening(db: Db, f: Fact, done: set<Spot>, seen: set<Identity>, now: Time)
    requires Flow(db, done, seen) && Shape(db) && ValidSeverity(f.severity)
    ensures Opening(Create(db, f, now).db, db.next + 1, Spot(f.target, f.nature.key), done, seen)
  {
    CreatedSustained(db, f, now);
    CreateBalanced(db, f, now);
    CreateOpens(db, f, now);
    CreateStale(db, f, done, seen, now);
  }

  lemma CreatedSustained(db: Db, f: Fact, now: Time)
    requires Sustained(db, {}) && Shape(db) && ValidSeverity(f.severity)
    ensures Sustained(Create(db, f, now).db, {db.next + 1})
  {
  }

  // ----- Applying a fact -----

  /** Natures stay coherent, and so does the uniqueness of impacts if it held. */
  ghost predicate Orderly(db: Db, db2: Db, keyOf: (string, string, string) -> string)
  {
    Coherent(db2, keyOf) && (OnePerNature(db) ==> OnePerNature(db2))
  }

  lemma OpenImpactFlow(db: Db, f: Fact, done: set<Spot>, seen: set<Identity>,
      keyOf: (string, string, string) -> string, now: Time)
    requires Flow(db, done, seen) && Shape(db) && Linked(db) && ValidSeverity(f.severity)
    requires Coherent(db, keyOf) && CoherentNature(f.nature, keyOf) && Spot(f.target, f.nature.key) !in done
    ensures var o := OpenImpact(db, f, now);
      && Opening(o.db, o.impact, Spot(f.target, f.nature.key), done, seen)
      && (OnePerNature(db) ==> OnePerNature(o.db))
  {
    var spot := Spot(f.target, f.nature.key);
    match ActiveImpact(db, f)
    case Some(p) => HostedOpening(db, p, f, done, seen);
    case None =>
      UnhostedIsVacant(db, f, done);
      match PropagatingIncident(db, f)
      case Some(i) =>
        assert CoherentNature(db.incidents[i].nature, keyOf);
        JoinOpening(db, i, f, done, seen);
        JoinOpens(db, i, f);
        OpensOneIf(db, Join(db, i, f).db, Join(db, i, f).impact, spot);
      case None =>
        match ResumableImpact(db, f, now)
        case Some(p) =>
          ResumeOpening(db, p, f, done, seen, now);
          ResumeOpens(db, p, f, now);
          OpensOneIf(db, Resume(db, p, f, now).db, p, spot);
        case None =>
          CreateOpening(db, f, done, seen, now);
          CreateOpens(db, f, now);
          OpensOneIf(db, Create(db, f, now).db, db.next + 1, spot);
  }

  lemma OpensOneIf(db: Db, db2: Db, p: Id, spot: Spot)
    requires Opens(db, db2, p, spot) && Vacant(db, spot)
    ensures OnePerNature(db) ==> OnePerNature(db2)
  {
    if OnePerNature(db) {
      OpensOne(db, db2, p, spot);
    }
  }

  lemma OpenImpactCoherent(db: Db, f: Fact, keyOf: (string, string, string) -> string, now: Time)
    requires Shape(db) && Linked(db) && ValidSeverity(f.severity) && Coherent(db, keyOf) && CoherentNature(f.nature, keyOf)
    ensures Coherent(OpenImpact(db, f, now).db, keyOf)
  {
    hide Join, Resume, Create, Hosts, Resumable, Propagates;
    match ActiveImpact(db, f)
    case Some(p) =>
    case None =>
      match PropagatingIncident(db, f)
      case Some(i) => JoinCoherent(db, i, f, keyOf);
      case None =>
        match ResumableImpact(db, f, now)
        case Some(p) => ResumeCoherent(db, p, f, keyOf, now);
        case None => CreateCoherent(db, f, keyOf, now);
  }

  lemma JoinCoherent(db: Db, i: Id, f: Fact, keyOf: (string, string, string) -> string)
    requires Coherent(db, keyOf) && ValidSeverity(f.severity) && i in db.incidents
    ensures Coherent(Join(db, i, f).db, keyOf)
  {
    hide EvidenceWindow, ImpactOn;
  }

  lemma ResumeCoherent(db: Db, p: Id, f: Fact, keyOf: (string, string, string) -> string, now: Time)
    requires Coherent(db, keyOf) && ValidSeverity(f.severity) && p in db.impacts && db.impacts[p].incident in db.incidents
    ensures Coherent(Resume(db, p, f, now).db, keyOf)
  {
  }

  lemma CreateCoherent(db: Db, f: Fact, keyOf: (string, string, string) -> string, now: Time)
    requires Coherent(db, keyOf) && CoherentNature(f.nature, keyOf) && ValidSeverity(f.severity)
    ensures Coherent(Create(db, f, now).db, keyOf)
  {
    hide EvidenceWindow;
  }

  /** The new evidence sustains the impact it opens. */
  lemma InsertEvidenceFlow(db: Db, f: Fact, i: Id, p: Id, spot: Spot, done: set<Spot>, seen: set<Identity>)
    requires Opening(db, p, spot, done, seen) && Shape(db) && Linked(db) && ValidSeverity(f.severity)
    requires i in db.incidents && db.impacts[p].incident == i
    ensures Flow(InsertEvidence(db, f, i, p), done + {spot}, seen + {f.identity})
  {
    var db2 := InsertEvidence(db, f, i, p);
    InsertedSustained(db, f, i, p);
    forall j | j in db2.incidents
      ensures SameCycle(db.incidents[j], db2.incidents[j]) && Balanced(db2.impacts, j, db2.incidents[j])
    {
      assert Balanced(db.impacts, j, db.incidents[j]);
    }
    forall q | OpenAt(db2, q)
      ensures OpenAt(db, q) && SpotOf(db2, q) == SpotOf(db, q)
    {
    }
  }

  lemma InsertedSustained(db: Db, f: Fact, i: Id, p: Id)
    requires Sustained(db, {p}) && Shape(db) && Linked(db) && ValidSeverity(f.severity) && i in db.incidents
    requires p in db.impacts && db.impacts[p].status == Active
    ensures Sustained(InsertEvidence(db, f, i, p), {})
  {
    var db2 := InsertEvidence(db, f, i, p);
    assert Sustains(db2.evidence[db.next], p);
    forall q | q in db2.impacts && q != p
      ensures db2.impacts[q].status == Active <==> exists e :: e in db2.evidence && Sustains(db2.evidence[e], q)
    {
      if e :| e in db.evidence && Sustains(db.evidence[e], q) {
        assert Sustains(db2.evidence[e], q);
      }
      if e :| e in db2.evidence && Sustains(db2.evidence[e], q) {
        assert e in db.evidence && Sustains(db.evidence[e], q);
      }
    }
  }

  lemma InsertEvidenceSame(db: Db, f: Fact, i: Id, p: Id)
    requires ValidSeverity(f.severity) && i in db.incidents && Linked(db)
    ensures var db2 := InsertEvidence(db, f, i, p);
      && db2.impacts == db.impacts && db2.incidents.Keys == db.incidents.Keys
      && forall j :: j in db.incidents ==> SameCycle(db.incidents[j], db2.incidents[j])
  {
  }

  /** Same natures and no new open impact. */
  lemma SameSpotsOrderly(db: Db, db2: Db, keyOf: (string, string, string) -> string)
    requires Coherent(db, keyOf) && Shrinks(db, db2) && db2.incidents.Keys == db.incidents.Keys
    requires forall j :: j in db.incidents ==> db2.incidents[j].nature == db.incidents[j].nature
    ensures Orderly(db, db2, keyOf)
  {
    if OnePerNature(db) {
      ShrinksOne(db, db2);
    }
  }

  lemma SameCyclesShrink(db: Db, db2: Db)
    requires db2.impacts == db.impacts && db2.incidents.Keys == db.incidents.Keys
    requires forall j :: j in db.incidents ==> SameCycle(db.incidents[j], db2.incidents[j])
    ensures Shrinks(db, db2)
  {
  }

  lemma AddEvidenceFlow(db: Db, f: Fact, i: Id, p: Id, spot: Spot, done: set<Spot>, seen: set<Identity>, now: Time)
    requires Opening(db, p, spot, done, seen) && Shape(db) && Linked(db) && ValidSeverity(f.severity)
    requires i in db.incidents && db.impacts[p].incident == i
    ensures Flow(AddEvidence(db, f, i, p, now), done + {spot}, seen + {f.identity})
  {
    var added := InsertEvidence(db, f, i, p);
    InsertEvidenceFlow(db, f, i, p, spot, done, seen);
    if f.upstream {
      AckFromEvidenceOnly(added, i, now);
      AckOnlyStill(added, AddEvidence(db, f, i, p, now));
      StillFlow(added, AddEvidence(db, f, i, p, now), done + {spot}, seen + {f.identity});
    }
  }

  lemma AddEvidenceOrderly(db: Db, f: Fact, i: Id, p: Id, keyOf: (string, string, string) -> string, now: Time)
    requires Coherent(db, keyOf) && Linked(db) && ValidSeverity(f.severity) && i in db.incidents
    ensures Orderly(db, AddEvidence(db, f, i, p, now), keyOf)
  {
    var added := InsertEvidence(db, f, i, p);
    InsertEvidenceSame(db, f, i, p);
    SameCyclesShrink(db, added);
    SameSpotsOrderly(db, added, keyOf);
    if f.upstream {
      AckFromEvidenceOnly(added, i, now);
      AckOnlyStill(added, AddEvidence(db, f, i, p, now));
      SameCyclesShrink(added, AddEvidence(db, f, i, p, now));
      SameSpotsOrderly(added, AddEvidence(db, f, i, p, now), keyOf);
    }
  }

  lemma FlowWider(db: Db, done: set<Spot>, seen: set<Identity>, done2: set<Spot>, seen2: set<Identity>)
    requires Flow(db, done, seen) && done <= done2 && seen <= seen2
    ensures Flow(db, done2, seen2)
  {
  }

  function FactSpot(f: Fact): Spot { Spot(f.target, f.nature.key) }

  /** What applying a fact keeps, when its spot has not been reported before. */
  ghost predicate FactKeeps(db: Db, f: Fact, r: Applied, done: set<Spot>, seen: set<Identity>,
      keyOf: (string, string, string) -> string)
  {
    !r.Failed? ==> Flow(r.db, done + {FactSpot(f)}, seen + {f.identity}) && Orderly(db, r.db, keyOf)
  }

  /** An open impact on the spot belongs to an incident still marked resolved: the query for a host misses it. */
  ghost predicate StaleAt(db: Db, spot: Spot)
  {
    exists p :: OpenAt(db, p) && SpotOf(db, p) == spot && db.incidents[db.impacts[p].incident].status == Resolved
  }

  /** The fact opens evidence on a spot whose incident was resumed and has not been recomputed yet. */
  ghost predicate Collides(db: Db, f: Fact)
  {
    !Suppressed(db.evidence, f.identity) && IsLive(db.targets, f.target) && StaleAt(db, FactSpot(f))
  }

  ghost predicate FactCollides(db: Db, f: Fact, now: Time)
    requires Linked(db)
  {
    Complete(f) &&
    match ActiveRow(db.evidence, f.identity)
    case None => Collides(db, f)
    case Some(e) =>
      var row := db.evidence[e];
      && row.invalidatedAt.None?
      && !(row.target == f.target && db.incidents[row.incident].nature.key == f.nature.key)
      && Collides(Retire(db, e, now), f)
  }

  /** A spot that was not reported before is not stale. */
  lemma FreshSpotFits(db: Db, f: Fact, done: set<Spot>, seen: set<Identity>, now: Time)
    requires Flow(db, done, seen) && Shape(db) && Linked(db) && f.identity !in seen && FactSpot(f) !in done
    ensures !FactCollides(db, f, now)
  {
    match ActiveRow(db.evidence, f.identity)
    case None =>
    case Some(e) => RetireFlow(db, e, done, seen, now);
  }

  lemma FlowWithout(db: Db, spot: Spot, done: set<Spot>, seen: set<Identity>)
    requires Flow(db, done, seen) && !StaleAt(db, spot)
    ensures Flow(db, done - {spot}, seen)
  {
  }

  lemma OpenFactFits(db: Db, f: Fact, done: set<Spot>, seen: set<Identity>,
      keyOf: (string, string, string) -> string, now: Time)
    requires Flow(db, done, seen) && Shape(db) && Linked(db) && ValidSeverity(f.severity)
    requires Coherent(db, keyOf) && CoherentNature(f.nature, keyOf) && !Collides(db, f)
    ensures FactKeeps(db, f, OpenFact(db, f, now), done, seen, keyOf)
  {
    hide Flow, Shape, OpenImpact, AddEvidence, Coherent, OnePerNature, Linked;
    FlowWider(db, done, seen, done + {FactSpot(f)}, seen + {f.identity});
    SelfOrderly(db, keyOf);
    if !Suppressed(db.evidence, f.identity) && IsLive(db.targets, f.target) {
      var fewer := done - {FactSpot(f)};
      FlowWithout(db, FactSpot(f), done, seen);
      OpenFactFlow(db, f, fewer, seen, keyOf, now);
      assert fewer + {FactSpot(f)} == done + {FactSpot(f)};
    }
  }

  lemma SelfOrderly(db: Db, keyOf: (string, string, string) -> string)
    requires Coherent(db, keyOf)
    ensures Orderly(db, db, keyOf)
  {
  }

  lemma OpenFactFlow(db: Db, f: Fact, done: set<Spot>, seen: set<Identity>,
      keyOf: (string, string, string) -> string, now: Time)
    requires Flow(db, done, seen) && Shape(db) && Linked(db) && ValidSeverity(f.severity)
    requires Coherent(db, keyOf) && CoherentNature(f.nature, keyOf) && FactSpot(f) !in done
    ensures FactKeeps(db, f, OpenFact(db, f, now), done, seen, keyOf)
  {
    FlowWider(db, done, seen, done + {FactSpot(f)}, seen + {f.identity});
    if !Suppressed(db.evidence, f.identity) && f.target in db.targets && db.targets[f.target] == Live {
      var o := OpenImpact(db, f, now);
      OpenImpactShape(db, f, now);
      OpenImpactFlow(db, f, done, seen, keyOf, now);
      OpenImpactCoherent(db, f, keyOf, now);
      AddEvidenceFlow(o.db, f, o.incident, o.impact, FactSpot(f), done, seen, now);
      AddEvidenceOrderly(o.db, f, o.incident, o.impact, keyOf, now);
    }
  }

  lemma ApplyFactFlow(db: Db, f: Fact, done: set<Spot>, seen: set<Identity>,
      keyOf: (string, string, string) -> string, now: Time)
    requires Flow(db, done, seen) && Shape(db) && Linked(db) && f.identity !in seen
    requires Coherent(db, keyOf) && CoherentNature(f.nature, keyOf) && !FactCollides(db, f, now)
    ensures FactKeeps(db, f, ApplyFact(db, f, now), done, seen, keyOf)
  {
    if Complete(f) {
      match ActiveRow(db.evidence, f.identity)
      case None => OpenFactFits(db, f, done, seen, keyOf, now);
      case Some(e) =>
        var row := db.evidence[e];
        assert row.invalidatedAt.None?;
        if row.target == f.target && db.incidents[row.incident].nature.key == f.nature.key {
          var db2 := Refresh(db, e, f, now);
          RefreshStill(db, e, f, now);
          StillFlow(db, db2, done, seen);
          FlowWider(db2, done, seen, done + {FactSpot(f)}, seen + {f.identity});
          SameCyclesShrink(db, db2);
          SameSpotsOrderly(db, db2, keyOf);
        } else {
          var db1 := Retire(db, e, now);
          RetireShape(db, e, now);
          RetireFlow(db, e, done, seen, now);
          RetireOrderly(db, e, keyOf, now);
          OpenFactFits(db1, f, done, seen, keyOf, now);
        }
    }
  }

  lemma RetireOrderly(db: Db, e: Id, keyOf: (string, string, string) -> string, now: Time)
    requires Coherent(db, keyOf) && e in db.evidence && Shrinks(db, Retire(db, e, now))
    ensures Orderly(db, Retire(db, e, now), keyOf)
  {
    var db2 := Retire(db, e, now);
    SettleNatures(ResolveRows(db, {e}, now), {db.evidence[e].impact}, {db.evidence[e].incident}, now);
    SameSpotsOrderly(db, db2, keyOf);
  }

  lemma RecomputeNatures(db: Db, ns: set<Id>, now: Time)
    ensures var db2 := RecomputeIncidents(db, ns, now);
      db2.incidents.Keys == db.incidents.Keys && forall i :: i in db.incidents ==> db2.incidents[i].nature == db.incidents[i].nature
  {
  }

  lemma SettleNatures(db: Db, ps: set<Id>, ns: set<Id>, now: Time)
    ensures var db2 := Settle(db, ps, ns, now);
      db2.incidents.Keys == db.incidents.Keys && forall i :: i in db.incidents ==> db2.incidents[i].nature == db.incidents[i].nature
  {
  }
}
