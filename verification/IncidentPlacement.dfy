/** Where impacts sit: one per incident and target, and at least one per incident. */
module IncidentPlacement {
  import opened Common
  import opened IncidentModel
  import opened IncidentCycle
  import opened IncidentInvariants

  ghost predicate UniqueImpact(impacts: map<Id, Impact>)
  {
    forall p, q :: p in impacts && q in impacts && impacts[p].incident == impacts[q].incident ==>
      (impacts[p].target == impacts[q].target ==> p == q)
  }

  ghost predicate Populated(db: Db)
  {
    forall i :: i in db.incidents ==> exists p :: p in db.impacts && db.impacts[p].incident == i
  }

  ghost predicate Placement(db: Db)
  {
    UniqueImpact(db.impacts) && Populated(db)
  }

  /** Impacts keep their place; incidents stay. */
  ghost predicate SamePlaces(db: Db, db2: Db)
  {
    && db2.impacts.Keys == db.impacts.Keys && db2.incidents.Keys == db.incidents.Keys
    && forall p :: p in db.impacts ==>
      db2.impacts[p].incident == db.impacts[p].incident && db2.impacts[p].target == db.impacts[p].target
  }

  lemma SamePlacesKeep(db: Db, db2: Db)
    requires Placement(db) && SamePlaces(db, db2)
    ensures Placement(db2)
  {
    forall i | i in db2.incidents
      ensures exists p :: p in db2.impacts && db2.impacts[p].incident == i
    {
      var p :| p in db.impacts && db.impacts[p].incident == i;
      assert db2.impacts[p].incident == i;
    }
  }

  lemma SettlePlaces(db: Db, ps: set<Id>, ns: set<Id>, now: Time)
    ensures SamePlaces(db, Settle(db, ps, ns, now))
  {
  }

  lemma RetirePlaces(db: Db, e: Id, now: Time)
    requires e in db.evidence
    ensures SamePlaces(db, Retire(db, e, now))
  {
    SettlePlaces(ResolveRows(db, {e}, now), {db.evidence[e].impact}, {db.evidence[e].incident}, now);
  }

  lemma AckOnlyPlaces(db: Db, db2: Db)
    requires AckOnly(db, db2)
    ensures SamePlaces(db, db2)
  {
  }

  lemma JoinPlacement(db: Db, i: Id, f: Fact)
    requires Shape(db) && Placement(db) && ValidSeverity(f.severity) && i in db.incidents
    ensures Placement(Join(db, i, f).db)
  {
    hide Rejoin, Spread, Placement, Shape;
    match ImpactOn(db.impacts, i, f.target)
    case Some(p) => RejoinPlacement(db, i, p, f);
    case None => SpreadPlacement(db, i, f);
  }

  lemma RejoinPlacement(db: Db, i: Id, p: Id, f: Fact)
    requires Placement(db) && ValidSeverity(f.severity) && i in db.incidents && p in db.impacts
    ensures Placement(Rejoin(db, i, p, f).db)
  {
    SamePlacesKeep(db, Rejoin(db, i, p, f).db);
  }

  lemma SpreadPlacement(db: Db, i: Id, f: Fact)
    requires Shape(db) && Placement(db) && ValidSeverity(f.severity) && i in db.incidents
    requires ImpactOn(db.impacts, i, f.target).None?
    ensures Placement(Spread(db, i, f).db)
  {
    hide ImpactRow, IncidentRow, EvidenceRow, EvidenceWindow;
    var db2 := Spread(db, i, f).db;
    forall j | j in db2.incidents
      ensures exists p :: p in db2.impacts && db2.impacts[p].incident == j
    {
      var p :| p in db.impacts && db.impacts[p].incident == j;
      assert db2.impacts[p].incident == j;
    }
  }

  lemma CreatePlacement(db: Db, f: Fact, now: Time)
    requires Shape(db) && Placement(db) && ValidSeverity(f.severity)
    ensures Placement(Create(db, f, now).db)
  {
    var db2 := Create(db, f, now).db;
    assert db2.impacts[db.next + 1].incident == db.next;
    forall j | j in db.incidents
      ensures exists p :: p in db2.impacts && db2.impacts[p].incident == j
    {
      var p :| p in db.impacts && db.impacts[p].incident == j;
      assert db2.impacts[p].incident == j;
    }
  }

  lemma ResumePlacement(db: Db, p: Id, f: Fact, now: Time)
    requires Placement(db) && ValidSeverity(f.severity) && p in db.impacts && db.impacts[p].incident in db.incidents
    ensures Placement(Resume(db, p, f, now).db)
  {
    SamePlacesKeep(db, Resume(db, p, f, now).db);
  }

  lemma OpenImpactPlacement(db: Db, f: Fact, now: Time)
    requires Shape(db) && Placement(db) && ValidSeverity(f.severity) && Linked(db)
    ensures Placement(OpenImpact(db, f, now).db)
  {
    hide Join, Resume, Create, Propagates, Hosts;
    match ActiveImpact(db, f)
    case Some(p) =>
    case None =>
      match PropagatingIncident(db, f)
      case Some(i) => JoinPlacement(db, i, f);
      case None =>
        match ResumableImpact(db, f, now)
        case Some(p) => ResumePlacement(db, p, f, now);
        case None => CreatePlacement(db, f, now);
  }

  lemma AddEvidencePlaces(db: Db, f: Fact, i: Id, p: Id, now: Time)
    requires ValidSeverity(f.severity) && i in db.incidents && Linked(db)
    ensures SamePlaces(db, AddEvidence(db, f, i, p, now))
  {
    var added := InsertEvidence(db, f, i, p);
    assert SamePlaces(db, added);
    if f.upstream {
      AckFromEvidenceOnly(added, i, now);
      AckOnlyPlaces(added, AckFromEvidence(added, i, now));
    }
  }

  lemma RefreshPlacement(db: Db, e: Id, f: Fact, now: Time)
    requires Placement(db) && ValidSeverity(f.severity) && e in db.evidence && Linked(db)
    ensures Placement(Refresh(db, e, f, now))
  {
    var refreshed := RefreshRow(db, e, f);
    SamePlacesKeep(db, refreshed);
    if f.upstream {
      AckFromEvidenceOnly(refreshed, db.evidence[e].incident, now);
      AckOnlyPlaces(refreshed, Refresh(db, e, f, now));
      SamePlacesKeep(refreshed, Refresh(db, e, f, now));
    }
  }

  lemma OpenFactPlacement(db: Db, f: Fact, now: Time)
    requires Shape(db) && Placement(db) && Linked(db) && ValidSeverity(f.severity)
    ensures var r := OpenFact(db, f, now); !r.Failed? ==> Placement(r.db)
  {
    if !Suppressed(db.evidence, f.identity) && f.target in db.targets && db.targets[f.target] == Live {
      var o := OpenImpact(db, f, now);
      OpenImpactPlacement(db, f, now);
      AddEvidencePlaces(o.db, f, o.incident, o.impact, now);
      SamePlacesKeep(o.db, AddEvidence(o.db, f, o.incident, o.impact, now));
    }
  }

  lemma ApplyFactPlacement(db: Db, f: Fact, now: Time)
    requires Shape(db) && Placement(db) && Linked(db)
    ensures var r := ApplyFact(db, f, now); !r.Failed? ==> Placement(r.db)
  {
    hide Refresh, Retire, OpenFact;
    if Complete(f) {
      match ActiveRow(db.evidence, f.identity)
      case None => OpenFactPlacement(db, f, now);
      case Some(e) =>
        var row := db.evidence[e];
        if row.target == f.target && db.incidents[row.incident].nature.key == f.nature.key {
          RefreshPlacement(db, e, f, now);
        } else {
          var db1 := Retire(db, e, now);
          RetirePlaces(db, e, now);
          SamePlacesKeep(db, db1);
          RetireShape(db, e, now);
          OpenFactPlacement(db1, f, now);
        }
    }
  }
}
