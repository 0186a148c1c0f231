/** What a step may do to the rows it finds: nothing is forgotten, closed windows stay put. */
module IncidentEvolution {
  import opened Common
  import opened IncidentModel
  import opened IncidentCycle
  import opened IncidentSnapshot
  import opened IncidentStructure
  import opened IncidentInvariants
  import opened IncidentStructureProofs

  /** An incident row after a step observed at `now`. */
  predicate IncidentEvolves(row: Incident, row2: Incident, now: Time)
  {
    && row2.nature == row.nature && row2.openedAt == row.openedAt
    // once acknowledged, acknowledged at the same instant for ever
    && (row.acknowledgedAt.Some? ==> row2.acknowledgedAt == row.acknowledgedAt)
    && row.resumptions <= row2.resumptions && row.resolutions <= row2.resolutions
    && row.maxAffected <= row2.maxAffected && (row.extended ==> row2.extended)
    // the window only grows while open, closes once it has run out, and never moves again
    && row.endsAt <= row2.endsAt
    && (row.propagation == Closed ==>
          && row2.propagation == Closed && row2.closedAt == row.closedAt
          && row2.endsAt == row.endsAt && row2.lastImpactAt == row.lastImpactAt && row2.window == row.window)
    && (row.propagation == Open && row2.propagation == Closed ==> row2.closedAt == Some(now) && row2.endsAt <= now)
    && (row2.status == Resolved ==>
          row2.resolvedAt == Some(now) || (row.status == Resolved && row2.resolvedAt == row.resolvedAt))
  }

  /** An incident that did not exist before the step. */
  predicate IncidentAppears(row: Incident, now: Time)
  {
    && 0 <= row.resumptions && 0 <= row.resolutions
    && (row.propagation == Closed ==> row.closedAt == Some(now) && (row.nature.eligible ==> row.endsAt <= now))
    && (row.status == Resolved ==> row.resolvedAt == Some(now))
  }

  /** Evidence is never deleted, never changes identity or incident, and once closed or invalidated stays so. */
  predicate EvidenceEvolves(row: Evidence, row2: Evidence)
  {
    && row2.incident == row.incident && row2.identity == row.identity && row2.openedAt == row.openedAt
    && (row2.active ==> row.active)
    && (row.invalidatedAt.Some? ==> row2.invalidatedAt == row.invalidatedAt)
    && (row.rearmedAt.Some? ==> row2.rearmedAt == row.rearmedAt)
  }

  ghost predicate Evolves(db: Db, db2: Db, now: Time)
  {
    && (forall i :: i in db.incidents ==> i in db2.incidents && IncidentEvolves(db.incidents[i], db2.incidents[i], now))
    && (forall i :: i in db2.incidents && i !in db.incidents ==> IncidentAppears(db2.incidents[i], now))
    && (forall e :: e in db.evidence ==> e in db2.evidence && EvidenceEvolves(db.evidence[e], db2.evidence[e]))
  }

  lemma EvolvesRefl(db: Db, now: Time)
    ensures Evolves(db, db, now)
  {
  }

  lemma EvolvesTrans(a: Db, b: Db, c: Db, now: Time)
    requires Evolves(a, b, now) && Evolves(b, c, now)
    ensures Evolves(a, c, now)
  {
    forall i | i in a.incidents
      ensures i in c.incidents && IncidentEvolves(a.incidents[i], c.incidents[i], now)
    {
      assert IncidentEvolves(a.incidents[i], b.incidents[i], now);
    }
    forall i | i in c.incidents && i !in a.incidents
      ensures IncidentAppears(c.incidents[i], now)
    {
      if i in b.incidents {
        assert IncidentAppears(b.incidents[i], now) && IncidentEvolves(b.incidents[i], c.incidents[i], now);
      }
    }
    forall e | e in a.evidence
      ensures e in c.evidence && EvidenceEvolves(a.evidence[e], c.evidence[e])
    {
      assert EvidenceEvolves(a.evidence[e], b.evidence[e]);
    }
  }

  // ----- Statements -----

  lemma ResolveRowsEvolves(db: Db, es: set<Id>, now: Time)
    ensures Evolves(db, ResolveRows(db, es, now), now)
  {
  }

  lemma RecomputeImpactsEvolves(db: Db, ps: set<Id>, now: Time)
    ensures Evolves(db, RecomputeImpacts(db, ps, now), now)
  {
  }

  lemma RecomputeIncidentsEvolves(db: Db, ns: set<Id>, now: Time)
    ensures Evolves(db, RecomputeIncidents(db, ns, now), now)
  {
    var db2 := RecomputeIncidents(db, ns, now);
    forall i | i in db.incidents
      ensures IncidentEvolves(db.incidents[i], db2.incidents[i], now)
    {
      AggregatedEvolves(db.impacts, LiveTargetCount(db.targets), i, db.incidents[i], now);
    }
  }

  lemma AggregatedEvolves(impacts: map<Id, Impact>, live: int, i: Id, row: Incident, now: Time)
    ensures IncidentEvolves(row, Aggregated(impacts, live, i, row, now), now)
  {
  }

  lemma SettleEvolves(db: Db, ps: set<Id>, ns: set<Id>, now: Time)
    ensures Evolves(db, Settle(db, ps, ns, now), now)
  {
    RecomputeImpactsEvolves(db, ps, now);
    RecomputeIncidentsEvolves(RecomputeImpacts(db, ps, now), ns, now);
    EvolvesTrans(db, RecomputeImpacts(db, ps, now), Settle(db, ps, ns, now), now);
  }

  lemma CloseEvolves(db: Db, es: set<Id>, now: Time)
    ensures Evolves(db, Close(db, es, now), now)
  {
    var db1 := ResolveRows(db, es, now);
    ResolveRowsEvolves(db, es, now);
    SettleEvolves(db1, ImpactsTouching(db, es), IncidentsTouching(db, es), now);
    EvolvesTrans(db, db1, Close(db, es, now), now);
  }

  lemma RecomputeAckEvolves(db: Db, i: Id, now: Time)
    requires i in db.incidents
    ensures Evolves(db, RecomputeAck(db, i), now)
  {
  }

  lemma MarkEvolves(db: Db, i: Id, row: Incident, now: Time)
    requires i in db.incidents && db.incidents[i].acknowledgedAt.None? && SameButAck(db.incidents[i], row)
    ensures Evolves(db, QueueEvidence(db.(incidents := db.incidents[i := row]), i), now)
  {
  }

  lemma AckFromEvidenceEvolves(db: Db, i: Id, now: Time)
    requires i in db.incidents && Linked(db)
    ensures Evolves(db, AckFromEvidence(db, i, now), now)
  {
    if Acknowledged(db, i) {
      RecomputeAckEvolves(db, i, now);
    } else {
      var row := db.incidents[i].(acknowledgedAt := Some(now));
      var queued := QueueEvidence(db.(incidents := db.incidents[i := row]), i);
      MarkEvolves(db, i, row, now);
      RecomputeAckEvolves(queued, i, now);
      EvolvesTrans(db, queued, AckFromEvidence(db, i, now), now);
    }
  }

  lemma ExtendEvolves(row: Incident, openedAt: Time, window: int, now: Time)
    requires IncidentRow(row) && row.propagation == Open
    ensures IncidentEvolves(row, ExtendPropagation(row, openedAt, window), now)
  {
  }

  lemma JoinEvolves(db: Db, i: Id, f: Fact, now: Time)
    requires Shape(db) && ValidSeverity(f.severity) && i in db.incidents && Propagates(db.incidents[i], f)
    ensures Evolves(db, Join(db, i, f).db, now)
  {
    hide ExtendPropagation, EvidenceWindow, ImpactOn, ImpactRow, EvidenceRow, IncidentEvolves, EvidenceEvolves;
    ExtendEvolves(db.incidents[i], f.openedAt, EvidenceWindow(db, f), now);
    EvolvesRefl(db, now);
  }

  lemma ResumeEvolves(db: Db, p: Id, f: Fact, now: Time)
    requires Shape(db) && ValidSeverity(f.severity) && p in db.impacts
    ensures Evolves(db, Resume(db, p, f, now).db, now)
  {
  }

  lemma CreateEvolves(db: Db, f: Fact, now: Time)
    requires Shape(db) && ValidSeverity(f.severity)
    ensures Evolves(db, Create(db, f, now).db, now)
  {
  }

  lemma OpenImpactEvolves(db: Db, f: Fact, now: Time)
    requires Shape(db) && ValidSeverity(f.severity) && Linked(db)
    ensures Evolves(db, OpenImpact(db, f, now).db, now)
  {
    match ActiveImpact(db, f)
    case Some(p) => EvolvesRefl(db, now);
    case None =>
      match PropagatingIncident(db, f)
      case Some(i) => JoinEvolves(db, i, f, now);
      case None =>
        match ResumableImpact(db, f, now)
        case Some(p) => ResumeEvolves(db, p, f, now);
        case None => CreateEvolves(db, f, now);
  }

  lemma InsertEvidenceEvolves(db: Db, f: Fact, i: Id, p: Id, now: Time)
    requires Shape(db) && ValidSeverity(f.severity) && i in db.incidents && Linked(db)
    ensures Evolves(db, InsertEvidence(db, f, i, p), now)
  {
    hide ImpactRow, EvidenceRow, IncidentRow;
  }

  lemma AddEvidenceEvolves(db: Db, f: Fact, i: Id, p: Id, now: Time)
    requires Shape(db) && ValidSeverity(f.severity) && i in db.incidents && Linked(db)
    ensures Evolves(db, AddEvidence(db, f, i, p, now), now)
  {
    var added := InsertEvidence(db, f, i, p);
    InsertEvidenceEvolves(db, f, i, p, now);
    if f.upstream {
      AckFromEvidenceEvolves(added, i, now);
      EvolvesTrans(db, added, AddEvidence(db, f, i, p, now), now);
    }
  }

  lemma RefreshEvolves(db: Db, e: Id, f: Fact, now: Time)
    requires ValidSeverity(f.severity) && e in db.evidence && Linked(db)
    ensures Evolves(db, Refresh(db, e, f, now), now)
  {
    var refreshed := RefreshRow(db, e, f);
    assert Evolves(db, refreshed, now);
    if f.upstream {
      AckFromEvidenceEvolves(refreshed, db.evidence[e].incident, now);
      EvolvesTrans(db, refreshed, Refresh(db, e, f, now), now);
    }
  }

  lemma OpenFactEvolves(db: Db, f: Fact, now: Time)
    requires Shape(db) && Linked(db) && ValidSeverity(f.severity)
    ensures var r := OpenFact(db, f, now); !r.Failed? ==> Evolves(db, r.db, now)
  {
    EvolvesRefl(db, now);
    if !Suppressed(db.evidence, f.identity) && f.target in db.targets && db.targets[f.target] == Live {
      var o := OpenImpact(db, f, now);
      OpenImpactShape(db, f, now);
      OpenImpactEvolves(db, f, now);
      AddEvidenceEvolves(o.db, f, o.incident, o.impact, now);
      EvolvesTrans(db, o.db, AddEvidence(o.db, f, o.incident, o.impact, now), now);
    }
  }

  lemma RetireEvolves(db: Db, e: Id, now: Time)
    requires e in db.evidence
    ensures Evolves(db, Retire(db, e, now), now)
  {
    var db1 := ResolveRows(db, {e}, now);
    ResolveRowsEvolves(db, {e}, now);
    SettleEvolves(db1, {db.evidence[e].impact}, {db.evidence[e].incident}, now);
    EvolvesTrans(db, db1, Retire(db, e, now), now);
  }

  lemma ApplyFactEvolves(db: Db, f: Fact, now: Time)
    requires Shape(db) && Linked(db)
    ensures var r := ApplyFact(db, f, now); !r.Failed? ==> Evolves(db, r.db, now)
  {
    if Complete(f) {
      match ActiveRow(db.evidence, f.identity)
      case None => OpenFactEvolves(db, f, now);
      case Some(e) =>
        var row := db.evidence[e];
        EvolvesRefl(db, now);
        if row.target == f.target && db.incidents[row.incident].nature.key == f.nature.key {
          RefreshEvolves(db, e, f, now);
        } else {
          var db1 := Retire(db, e, now);
          RetireEvolves(db, e, now);
          RetireShape(db, e, now);
          OpenFactEvolves(db1, f, now);
          if !OpenFact(db1, f, now).Failed? {
            EvolvesTrans(db, db1, OpenFact(db1, f, now).db, now);
          }
        }
    }
  }
}
