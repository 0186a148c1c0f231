/** Structural corrections and the uniqueness of impacts: exactly when a merge or a move puts two incidents on one spot. */
module IncidentRivals {
  import opened Common
  import opened IncidentModel
  import opened IncidentCycle
  import opened IncidentStructure
  import opened IncidentInvariants
  import opened IncidentAggregates
  import opened IncidentIdentities
  import opened IncidentAcknowledgement
  import opened IncidentPlacement
  import opened IncidentTransactions
  import opened IncidentStructureProofs
  import opened IncidentSequence

  /** Two incidents of one nature. */
  predicate Rivals(db: Db, i: Id, j: Id)
  {
    i in db.incidents && j in db.incidents && i != j && db.incidents[i].nature.key == db.incidents[j].nature.key
  }

  /** Rivals are active on different targets. */
  ghost predicate Disjoint(db: Db)
  {
    forall i, j, t :: Rivals(db, i, j) && t in ActiveTargets(db.impacts, i) ==> t !in ActiveTargets(db.impacts, j)
  }

  /** One active impact per spot means just that, since an incident has one impact per target. */
  lemma UniqueMeansDisjoint(db: Db)
    requires Shape(db) && UniqueImpact(db.impacts)
    ensures OnePerNature(db) <==> Disjoint(db)
  {
    hide IncidentRow, ImpactRow, EvidenceRow;
    if OnePerNature(db) {
      forall i, j, t | Rivals(db, i, j) && t in ActiveTargets(db.impacts, i)
        ensures t !in ActiveTargets(db.impacts, j)
      {
        if t in ActiveTargets(db.impacts, j) {
          ActiveTargetsClash(db, i, j, t);
        }
      }
    }
    if Disjoint(db) {
      forall p, q | OpenAt(db, p) && OpenAt(db, q) && SpotOf(db, p) == SpotOf(db, q)
        ensures p == q
      {
        var i, j := db.impacts[p].incident, db.impacts[q].incident;
        OpenTarget(db, p);
        OpenTarget(db, q);
        assert Rivals(db, i, j) <==> i != j;
      }
    }
  }

  lemma OpenTarget(db: Db, p: Id)
    requires OpenAt(db, p)
    ensures db.impacts[p].target in ActiveTargets(db.impacts, db.impacts[p].incident)
  {
  }

  lemma ActiveTargetsClash(db: Db, i: Id, j: Id, t: string)
    requires Rivals(db, i, j) && t in ActiveTargets(db.impacts, i) && t in ActiveTargets(db.impacts, j)
    ensures !OnePerNature(db)
  {
    var p :| p in db.impacts && db.impacts[p].incident == i && db.impacts[p].status == Active && db.impacts[p].target == t;
    var q :| q in db.impacts && db.impacts[q].incident == j && db.impacts[q].status == Active && db.impacts[q].target == t;
    assert OpenAt(db, p) && OpenAt(db, q) && SpotOf(db, p) == SpotOf(db, q);
  }

  ghost predicate SameNatures(db: Db, db2: Db)
  {
    db2.incidents.Keys == db.incidents.Keys && forall i :: i in db.incidents ==> db2.incidents[i].nature == db.incidents[i].nature
  }

  // ----- Merging targets -----

  /** No two incidents of one nature are active, one on the kept and the other on the absorbed target. */
  ghost predicate MergeClear(db: Db, primary: string, secondary: string)
  {
    forall i, j :: Rivals(db, i, j) && primary in ActiveTargets(db.impacts, i) ==> secondary !in ActiveTargets(db.impacts, j)
  }

  lemma MergeNatures(db: Db, primary: string, secondary: string, order: seq<Id>, now: Time)
    requires Inv(db) && Lists(order, ImpactsOn(db.impacts, secondary))
    requires MergeTargets(db, primary, secondary, order, now).Ok?
    ensures SameNatures(db, MergeTargets(db, primary, secondary, order, now).value)
  {
    hide AckOk, Identities, Placement, ImpactAgrees, IncidentAgrees, MergeAll, RecomputeIncidents;
    var ns := IncidentsOn(db.impacts, secondary);
    MergeStart(db, secondary, order, ns);
    MergeAllOk(db, order, primary, secondary, ns, now);
    RecomputeNatures(MergeAll(db, order, primary, now), ns, now);
  }

  lemma RenamedDisjoint(db: Db, db2: Db, primary: string, secondary: string)
    requires SameNatures(db, db2) && Disjoint(db) && primary != secondary
    requires forall i :: ActiveTargets(db2.impacts, i) == set t | t in ActiveTargets(db.impacts, i) :: Renamed(t, primary, secondary)
    ensures Disjoint(db2) <==> MergeClear(db, primary, secondary)
  {
    hide ActiveTargets;
    if MergeClear(db, primary, secondary) {
      forall i, j, t | Rivals(db2, i, j) && t in ActiveTargets(db2.impacts, i)
        ensures t !in ActiveTargets(db2.impacts, j)
      {
        assert Rivals(db, i, j) && Rivals(db, j, i);
      }
    } else {
      var i, j :| Rivals(db, i, j) && primary in ActiveTargets(db.impacts, i) && secondary in ActiveTargets(db.impacts, j);
      assert Renamed(primary, primary, secondary) == primary && Renamed(secondary, primary, secondary) == primary;
      assert Rivals(db2, i, j) && primary in ActiveTargets(db2.impacts, i) && primary in ActiveTargets(db2.impacts, j);
    }
  }

  /** A merge keeps impacts unique exactly if it is clear. */
  lemma MergeKeepsExactly(db: Db, primary: string, secondary: string, order: seq<Id>, now: Time)
    requires Inv(db) && OnePerNature(db) && Lists(order, ImpactsOn(db.impacts, secondary))
    requires MergeTargets(db, primary, secondary, order, now).Ok?
    ensures OnePerNature(MergeTargets(db, primary, secondary, order, now).value) <==> MergeClear(db, primary, secondary)
  {
    hide OnePerNature, Disjoint, MergeClear, MergeAll, RecomputeIncidents, Shape, Clean, AckOk;
    var db2 := MergeTargets(db, primary, secondary, order, now).value;
    MergeTargetsMeaning(db, primary, secondary, order, now);
    MergeNatures(db, primary, secondary, order, now);
    UniqueMeansDisjoint(db);
    UniqueMeansDisjoint(db2);
    RenamedDisjoint(db, db2, primary, secondary);
  }

  // ----- Moving a source -----

  /** Live evidence of the incident is on the destination, or goes there with its source. */
  ghost predicate Bound(db: Db, i: Id, t: string, source: string, binding: string)
  {
    exists e :: e in db.evidence && Arrives(db.evidence[e], i, t, source, binding)
  }

  predicate Arrives(row: Evidence, i: Id, t: string, source: string, binding: string)
  {
    LiveOn(row, i, row.target) && (row.target == t || FromSource(row, source, binding))
  }

  /** No two incidents of one nature have live evidence on the destination once the source is there. */
  ghost predicate MoveClear(db: Db, t: string, source: string, binding: string)
  {
    forall i, j :: Rivals(db, i, j) && Bound(db, i, t, source, binding) ==> !Bound(db, j, t, source, binding)
  }

  lemma BoundIsActive(db: Db, db2: Db, t: string, source: string, binding: string, i: Id)
    requires Shape(db2) && Clean(db2, {}, {}) && Moved(db.evidence, db2.evidence, t, source, binding)
    ensures Bound(db, i, t, source, binding) <==> t in ActiveTargets(db2.impacts, i)
  {
    hide Clean, ActiveTargets, Shape;
    if e :| e in db.evidence && Arrives(db.evidence[e], i, t, source, binding) {
      ConservedRow(db.evidence, db2.evidence, e);
      ActiveTargetFromEvidence(db2, i, e);
    }
    if t in ActiveTargets(db2.impacts, i) {
      var e := EvidenceOfActiveTarget(db2, i, t);
      ConservedRow(db.evidence, db2.evidence, e);
      assert Arrives(db.evidence[e], i, t, source, binding);
    }
  }

  /** On any other target nothing arrives. */
  lemma ElsewhereShrinks(db: Db, db2: Db, t: string, source: string, binding: string, i: Id, u: string)
    requires Shape(db) && Clean(db, {}, {}) && Shape(db2) && Clean(db2, {}, {}) && Moved(db.evidence, db2.evidence, t, source, binding)
    requires u != t && u in ActiveTargets(db2.impacts, i)
    ensures u in ActiveTargets(db.impacts, i)
  {
    hide Clean, ActiveTargets, Shape;
    var e := EvidenceOfActiveTarget(db2, i, u);
    ConservedRow(db.evidence, db2.evidence, e);
    ActiveTargetFromEvidence(db, i, e);
  }

  lemma MovedDisjoint(db: Db, db2: Db, t: string, source: string, binding: string)
    requires Shape(db) && Clean(db, {}, {}) && Shape(db2) && Clean(db2, {}, {}) && Moved(db.evidence, db2.evidence, t, source, binding)
    requires SameNatures(db, db2) && Disjoint(db)
    ensures Disjoint(db2) <==> MoveClear(db, t, source, binding)
  {
    hide Clean, ActiveTargets, Shape, Bound, Moved;
    forall i
      ensures Bound(db, i, t, source, binding) <==> t in ActiveTargets(db2.impacts, i)
    {
      BoundIsActive(db, db2, t, source, binding, i);
    }
    assert forall i, j :: Rivals(db, i, j) == Rivals(db2, i, j);
    if MoveClear(db, t, source, binding) {
      forall i, j, u | Rivals(db2, i, j) && u in ActiveTargets(db2.impacts, i)
        ensures u !in ActiveTargets(db2.impacts, j)
      {
        if u != t && u in ActiveTargets(db2.impacts, j) {
          ElsewhereShrinks(db, db2, t, source, binding, i, u);
          ElsewhereShrinks(db, db2, t, source, binding, j, u);
        }
      }
    }
  }

  lemma MoveNatures(db: Db, t: string, source: string, binding: string, order: seq<Id>, now: Time)
    requires Inv(db) && Lists(order, ImpactsFrom(db.evidence, source, binding))
    requires ReassignSource(db, t, source, binding, order, now).Ok?
    ensures SameNatures(db, ReassignSource(db, t, source, binding, order, now).value)
  {
    hide AckOk, Identities, Placement, ImpactAgrees, IncidentAgrees, ReassignAll, RecomputeIncidents;
    var ns := IncidentsFrom(db.evidence, source, binding);
    ReassignStart(db, t, source, binding, order);
    PartialWider(db, ns);
    ReassignAllOk(db, order, t, source, binding, ns, now);
    RecomputeNatures(ReassignAll(db, order, t, source, binding, now), ns, now);
  }

  /** Moving a source keeps impacts unique exactly if the move is clear. */
  lemma MoveKeepsExactly(db: Db, t: string, source: string, binding: string, order: seq<Id>, now: Time)
    requires Inv(db) && OnePerNature(db) && Lists(order, ImpactsFrom(db.evidence, source, binding))
    requires ReassignSource(db, t, source, binding, order, now).Ok?
    ensures OnePerNature(ReassignSource(db, t, source, binding, order, now).value) <==> MoveClear(db, t, source, binding)
  {
    hide OnePerNature, Disjoint, MoveClear, ReassignAll, RecomputeIncidents, Shape, Clean, AckOk;
    var db2 := ReassignSource(db, t, source, binding, order, now).value;
    ReassignSourceMeaning(db, t, source, binding, order, now);
    MoveNatures(db, t, source, binding, order, now);
    UniqueMeansDisjoint(db);
    UniqueMeansDisjoint(db2);
    MovedDisjoint(db, db2, t, source, binding);
  }
}
