/** What every committed state of the incident tables satisfies. */
module IncidentInvariants {
  import opened Common
  import opened IncidentModel
  import opened IncidentCycle

  // ----- Rows -----

  predicate EvidenceRow(row: Evidence)
  {
    && (row.active <==> row.resolvedAt.None?)
    && (row.active ==> row.invalidatedAt.None?)
    && (row.rearmedAt.Some? ==> row.invalidatedAt.Some?)
  }

  predicate ImpactRow(row: Impact)
  {
    row.status == Active <==> row.resolvedAt.None?
  }

  /** The window slides with the last impact, stays between one and five minutes, and only its end closes it. */
  predicate IncidentRow(row: Incident)
  {
    && 60 <= row.window <= 300 && row.endsAt == row.lastImpactAt + row.window && row.openedAt <= row.lastImpactAt
    && (row.propagation == Open <==> row.closedAt.None?)
    && (row.status == Active <==> row.resolvedAt.None?)
    && (row.status == Resolved ==> row.propagation == Closed)
    && (!row.nature.eligible ==> row.propagation == Closed)
    && (row.nature.eligible && row.propagation == Closed ==> row.endsAt <= row.closedAt.value)
  }

  ghost predicate Shape(db: Db)
  {
    && (forall i :: i in db.incidents ==> i < db.next && IncidentRow(db.incidents[i]))
    && (forall p :: p in db.impacts ==>
          && p < db.next && ImpactRow(db.impacts[p])
          && db.impacts[p].incident in db.incidents && db.impacts[p].target in db.targets)
    && (forall e :: e in db.evidence ==>
          && e < db.next && EvidenceRow(db.evidence[e])
          && db.evidence[e].impact in db.impacts
          && db.impacts[db.evidence[e].impact].incident == db.evidence[e].incident
          && db.impacts[db.evidence[e].impact].target == db.evidence[e].target)
  }

  lemma ShapeLinks(db: Db)
    requires Shape(db)
    ensures Linked(db)
  {
    forall e | e in db.evidence
      ensures db.evidence[e].incident in db.incidents
    {
      assert db.evidence[e].impact in db.impacts;
    }
  }

  lemma ResolveRowsShape(db: Db, es: set<Id>, now: Time)
    requires Shape(db)
    ensures Shape(ResolveRows(db, es, now))
  {
  }

  lemma RecomputeImpactsShape(db: Db, ps: set<Id>, now: Time)
    requires Shape(db)
    ensures Shape(RecomputeImpacts(db, ps, now))
  {
  }

  lemma AggregatedRow(impacts: map<Id, Impact>, live: int, i: Id, row: Incident, now: Time)
    requires IncidentRow(row)
    ensures IncidentRow(Aggregated(impacts, live, i, row, now))
  {
  }

  lemma RecomputeIncidentsShape(db: Db, ns: set<Id>, now: Time)
    requires Shape(db)
    ensures Shape(RecomputeIncidents(db, ns, now))
  {
    forall i | i in db.incidents
      ensures IncidentRow(RecomputeIncidents(db, ns, now).incidents[i])
    {
      AggregatedRow(db.impacts, LiveTargetCount(db.targets), i, db.incidents[i], now);
    }
  }

  lemma SettleShape(db: Db, ps: set<Id>, ns: set<Id>, now: Time)
    requires Shape(db)
    ensures Shape(Settle(db, ps, ns, now))
  {
    RecomputeImpactsShape(db, ps, now);
    RecomputeIncidentsShape(RecomputeImpacts(db, ps, now), ns, now);
  }

  lemma RetireShape(db: Db, e: Id, now: Time)
    requires Shape(db) && e in db.evidence
    ensures Shape(Retire(db, e, now)) && Linked(Retire(db, e, now))
  {
    ResolveRowsShape(db, {e}, now);
    SettleShape(ResolveRows(db, {e}, now), {db.evidence[e].impact}, {db.evidence[e].incident}, now);
    ShapeLinks(Retire(db, e, now));
  }

  /** `row2` differs from `row` by its acknowledgement only. */
  predicate SameButAck(row: Incident, row2: Incident)
  {
    row2 == row.(acknowledgedAt := row2.acknowledgedAt, ackSync := row2.ackSync)
  }

  predicate SameButSync(row: Evidence, row2: Evidence)
  {
    row2 == row.(ackSync := row2.ackSync)
  }

  /** Only acknowledgement columns differ. */
  ghost predicate AckOnly(db: Db, db2: Db)
  {
    && db2 == db.(incidents := db2.incidents, evidence := db2.evidence)
    && db2.incidents.Keys == db.incidents.Keys && db2.evidence.Keys == db.evidence.Keys
    && (forall i :: i in db.incidents ==> SameButAck(db.incidents[i], db2.incidents[i]))
    && (forall e :: e in db.evidence ==> SameButSync(db.evidence[e], db2.evidence[e]))
  }

  lemma AckOnlyTransitive(a: Db, b: Db, c: Db)
    requires AckOnly(a, b) && AckOnly(b, c)
    ensures AckOnly(a, c)
  {
  }

  lemma RecomputeAckOnly(db: Db, i: Id)
    requires i in db.incidents
    ensures AckOnly(db, RecomputeAck(db, i))
  {
  }

  lemma QueueEvidenceOnly(db: Db, i: Id)
    ensures AckOnly(db, QueueEvidence(db, i))
  {
  }

  lemma AckFromEvidenceOnly(db: Db, i: Id, now: Time)
    requires i in db.incidents && Linked(db)
    ensures AckOnly(db, AckFromEvidence(db, i, now))
  {
    if Acknowledged(db, i) {
      RecomputeAckOnly(db, i);
    } else {
      var marked := db.(incidents := db.incidents[i := db.incidents[i].(acknowledgedAt := Some(now))]);
      var queued := QueueEvidence(marked, i);
      assert AckOnly(db, marked);
      QueueEvidenceOnly(marked, i);
      RecomputeAckOnly(queued, i);
      AckOnlyTransitive(db, marked, queued);
      AckOnlyTransitive(db, queued, RecomputeAck(queued, i));
    }
  }

  lemma AckOnlyShape(db: Db, db2: Db)
    requires Shape(db) && AckOnly(db, db2)
    ensures Shape(db2)
  {
    forall i | i in db2.incidents ensures IncidentRow(db2.incidents[i]) && i < db2.next {
      assert SameButAck(db.incidents[i], db2.incidents[i]);
    }
    forall e | e in db2.evidence
      ensures e < db2.next && EvidenceRow(db2.evidence[e]) && db2.evidence[e].impact in db2.impacts
      ensures db2.impacts[db2.evidence[e].impact].incident == db2.evidence[e].incident
      ensures db2.impacts[db2.evidence[e].impact].target == db2.evidence[e].target
    {
      assert SameButSync(db.evidence[e], db2.evidence[e]);
    }
  }

  lemma JoinShape(db: Db, i: Id, f: Fact)
    requires Shape(db) && ValidSeverity(f.severity) && f.target in db.targets
    requires i in db.incidents && Propagates(db.incidents[i], f)
    ensures Shape(Join(db, i, f).db) && Placed(db, f, Join(db, i, f))
  {
    hide Rejoin, Spread, Propagates;
    SlidRow(db, i, f);
    match ImpactOn(db.impacts, i, f.target)
    case Some(p) => RejoinShape(db, i, p, f);
    case None => SpreadShape(db, i, f);
  }

  lemma SlidRow(db: Db, i: Id, f: Fact)
    requires i in db.incidents && IncidentRow(db.incidents[i])
    ensures IncidentRow(Slid(db, i, f)[i])
  {
  }

  lemma RejoinShape(db: Db, i: Id, p: Id, f: Fact)
    requires Shape(db) && ValidSeverity(f.severity) && i in db.incidents && IncidentRow(Slid(db, i, f)[i])
    requires p in db.impacts && db.impacts[p].incident == i && db.impacts[p].target == f.target
    ensures Shape(Rejoin(db, i, p, f).db) && Placed(db, f, Rejoin(db, i, p, f))
  {
    hide ExtendPropagation, EvidenceWindow, IncidentRow;
  }

  lemma SpreadShape(db: Db, i: Id, f: Fact)
    requires Shape(db) && ValidSeverity(f.severity) && f.target in db.targets
    requires i in db.incidents && IncidentRow(Slid(db, i, f)[i])
    ensures Shape(Spread(db, i, f).db) && Placed(db, f, Spread(db, i, f))
  {
    hide ExtendPropagation, EvidenceWindow, IncidentRow;
  }

  lemma ResumeShape(db: Db, p: Id, f: Fact, now: Time)
    requires Shape(db) && ValidSeverity(f.severity) && Bears(db, p, f.target, f.nature.key)
    ensures Shape(Resume(db, p, f, now).db) && Placed(db, f, Resume(db, p, f, now))
  {
  }

  lemma CreateShape(db: Db, f: Fact, now: Time)
    requires Shape(db) && ValidSeverity(f.severity) && f.target in db.targets
    ensures Shape(Create(db, f, now).db) && Placed(db, f, Create(db, f, now))
  {
  }

  /** The impact a fact is recorded on belongs to its target and to the incident returned with it. */
  ghost predicate Placed(db: Db, f: Fact, o: Opened)
  {
    && o.db.evidence == db.evidence && o.db.targets == db.targets
    && o.incident in o.db.incidents && o.impact in o.db.impacts
    && o.db.impacts[o.impact].incident == o.incident && o.db.impacts[o.impact].target == f.target
  }

  lemma OpenImpactShape(db: Db, f: Fact, now: Time)
    requires Shape(db) && ValidSeverity(f.severity) && f.target in db.targets && Linked(db)
    ensures Shape(OpenImpact(db, f, now).db) && Placed(db, f, OpenImpact(db, f, now))
  {
    hide Join, Resume, Create;
    match ActiveImpact(db, f)
    case Some(p) =>
    case None =>
      match PropagatingIncident(db, f)
      case Some(i) => JoinShape(db, i, f);
      case None =>
        match ResumableImpact(db, f, now)
        case Some(p) => ResumeShape(db, p, f, now);
        case None => CreateShape(db, f, now);
  }

  lemma InsertEvidenceShape(db: Db, f: Fact, i: Id, p: Id)
    requires Shape(db) && ValidSeverity(f.severity) && i in db.incidents && Linked(db)
    requires p in db.impacts && db.impacts[p].incident == i && db.impacts[p].target == f.target
    ensures Shape(InsertEvidence(db, f, i, p))
  {
  }

  lemma RefreshRowShape(db: Db, e: Id, f: Fact)
    requires Shape(db) && ValidSeverity(f.severity) && e in db.evidence && Linked(db)
    ensures Shape(RefreshRow(db, e, f))
  {
  }
}
