/** Acknowledgements reach every piece of Zabbix evidence of the incident they cover. */
module IncidentAcknowledgement {
  import opened Common
  import opened IncidentModel
  import opened IncidentCycle
  import opened IncidentInvariants

  /** Active Zabbix evidence: synchronized only if acknowledged upstream, never left aside once its incident is acknowledged. */
  predicate RowAck(row: Evidence, acknowledged: bool)
  {
    row.active && row.identity.origin == Zabbix ==>
      && (row.ackSync == Synchronized ==> row.upstream)
      && (acknowledged ==> row.ackSync != NotApplicable)
  }

  ghost predicate RowsAck(db: Db)
  {
    forall e :: e in db.evidence ==> RowAck(db.evidence[e], Acknowledged(db, db.evidence[e].incident))
  }

  /** An upstream acknowledgement has acknowledged the incident, except perhaps incident `skip`. */
  ghost predicate UpstreamAck(db: Db, skip: Option<Id>)
  {
    forall e :: e in db.evidence && Remote(db.evidence[e], db.evidence[e].incident) && db.evidence[e].upstream ==>
      skip == Some(db.evidence[e].incident) || Acknowledged(db, db.evidence[e].incident)
  }

  /** The stored synchronization status of acknowledged incidents outside `ns` is the derived one. */
  ghost predicate SyncAgrees(db: Db, ns: set<Id>)
  {
    forall i :: i in db.incidents && i !in ns && Acknowledged(db, i) ==>
      db.incidents[i].ackSync == DerivedSync(db.evidence, i)
  }

  ghost predicate AckOk(db: Db, ns: set<Id>)
  {
    RowsAck(db) && UpstreamAck(db, None) && SyncAgrees(db, ns)
  }

  // ----- Frames -----

  /** Rows of incidents outside `ns` count the same for acknowledgements. */
  ghost predicate SameRemote(evidence: map<Id, Evidence>, evidence2: map<Id, Evidence>, ns: set<Id>)
  {
    && (forall e :: e in evidence && evidence[e].incident !in ns ==> e in evidence2 && SameRemoteRow(evidence[e], evidence2[e]))
    && (forall e :: e in evidence2 && evidence2[e].incident !in ns ==> e in evidence && SameRemoteRow(evidence[e], evidence2[e]))
  }

  predicate SameRemoteRow(row: Evidence, row2: Evidence)
  {
    && row2.incident == row.incident && row2.active == row.active
    && row2.identity == row.identity && row2.ackSync == row.ackSync
  }

  lemma DerivedSyncFrame(evidence: map<Id, Evidence>, evidence2: map<Id, Evidence>, ns: set<Id>, i: Id)
    requires SameRemote(evidence, evidence2, ns) && i !in ns
    ensures DerivedSync(evidence, i) == DerivedSync(evidence2, i)
  {
    assert forall e :: e in evidence && Remote(evidence[e], i) ==>
      e in evidence2 && Remote(evidence2[e], i) && evidence[e].ackSync == evidence2[e].ackSync;
    assert forall e :: e in evidence2 && Remote(evidence2[e], i) ==>
      e in evidence && Remote(evidence[e], i) && evidence[e].ackSync == evidence2[e].ackSync;
  }

  /** Incidents keep their acknowledgement; new ones have none. */
  ghost predicate SameAcks(incidents: map<Id, Incident>, incidents2: map<Id, Incident>, ns: set<Id>)
  {
    && (forall i :: i in incidents ==> i in incidents2 && incidents2[i].acknowledgedAt == incidents[i].acknowledgedAt)
    && (forall i :: i in incidents2 ==> if i in incidents then i in ns || incidents2[i].ackSync == incidents[i].ackSync
                                        else incidents2[i].acknowledgedAt.None?)
  }

  lemma SyncAgreesFrame(db: Db, db2: Db, ns: set<Id>, ns2: set<Id>)
    requires SyncAgrees(db, ns) && ns <= ns2
    requires SameAcks(db.incidents, db2.incidents, ns2) && SameRemote(db.evidence, db2.evidence, ns2)
    ensures SyncAgrees(db2, ns2)
  {
    forall i | i in db2.incidents && i !in ns2 && Acknowledged(db2, i)
      ensures db2.incidents[i].ackSync == DerivedSync(db2.evidence, i)
    {
      DerivedSyncFrame(db.evidence, db2.evidence, ns2, i);
    }
  }

  // ----- Statements -----

  lemma RecomputeIncidentsAck(db: Db, ms: set<Id>, ns: set<Id>, now: Time)
    requires AckOk(db, ns)
    ensures AckOk(RecomputeIncidents(db, ms, now), ns - ms)
  {
    var db2 := RecomputeIncidents(db, ms, now);
    assert forall i :: i in db.incidents ==> db2.incidents[i].acknowledgedAt == db.incidents[i].acknowledgedAt;
    forall e | e in db2.evidence
      ensures RowAck(db2.evidence[e], Acknowledged(db2, db2.evidence[e].incident))
    {
      assert Acknowledged(db2, db2.evidence[e].incident) == Acknowledged(db, db.evidence[e].incident);
    }
  }

  lemma SettleAck(db: Db, ps: set<Id>, ns: set<Id>, now: Time)
    requires AckOk(db, ns)
    ensures AckOk(Settle(db, ps, ns, now), {})
  {
    var db1 := RecomputeImpacts(db, ps, now);
    assert AckOk(db1, ns);
    RecomputeIncidentsAck(db1, ns, ns, now);
    assert ns - ns == {};
  }

  lemma ResolveRowsAck(db: Db, es: set<Id>, ns: set<Id>, ns2: set<Id>, now: Time)
    requires AckOk(db, ns) && ns <= ns2
    requires forall e :: e in es && e in db.evidence ==> db.evidence[e].incident in ns2
    ensures AckOk(ResolveRows(db, es, now), ns2)
  {
    var db2 := ResolveRows(db, es, now);
    assert forall i :: Acknowledged(db2, i) == Acknowledged(db, i);
    assert forall e :: e in db.evidence ==>
      RowAck(db.evidence[e], Acknowledged(db, db.evidence[e].incident)) ==>
      RowAck(db2.evidence[e], Acknowledged(db, db.evidence[e].incident));
    SyncAgreesFrame(db, db2, ns, ns2);
  }

  lemma RetireAck(db: Db, e: Id, ns: set<Id>, now: Time)
    requires AckOk(db, ns) && e in db.evidence
    ensures AckOk(Retire(db, e, now), ns)
  {
    var row := db.evidence[e];
    ResolveRowsAck(db, {e}, ns, ns + {row.incident}, now);
    var db1 := RecomputeImpacts(ResolveRows(db, {e}, now), {row.impact}, now);
    assert AckOk(db1, ns + {row.incident});
    RecomputeIncidentsAck(db1, {row.incident}, ns + {row.incident}, now);
    SyncAgreesWider(Retire(db, e, now), ns + {row.incident} - {row.incident}, ns);
  }

  lemma SyncAgreesWider(db: Db, ns: set<Id>, ns2: set<Id>)
    requires SyncAgrees(db, ns) && ns <= ns2
    ensures SyncAgrees(db, ns2)
  {
  }

  /** Marking an incident acknowledged queues its evidence, so that no row of it is left aside. */
  lemma MarkedRowsAck(db: Db, i: Id, row: Incident)
    requires RowsAck(db) && i in db.incidents && row.acknowledgedAt.Some?
    ensures RowsAck(QueueEvidence(db.(incidents := db.incidents[i := row]), i))
  {
    var db2 := QueueEvidence(db.(incidents := db.incidents[i := row]), i);
    forall e | e in db2.evidence
      ensures RowAck(db2.evidence[e], Acknowledged(db2, db2.evidence[e].incident))
    {
      assert RowAck(db.evidence[e], Acknowledged(db, db.evidence[e].incident));
    }
  }

  lemma AckFromEvidenceAck(db: Db, i: Id, ns: set<Id>, now: Time)
    requires i in db.incidents && Linked(db)
    requires RowsAck(db) && UpstreamAck(db, Some(i)) && SyncAgrees(db, ns) && i in ns
    ensures AckOk(AckFromEvidence(db, i, now), ns)
  {
    if Acknowledged(db, i) {
      var db2 := RecomputeAck(db, i);
      assert forall j :: Acknowledged(db2, j) == Acknowledged(db, j);
      SyncAgreesFrame(db, db2, ns, ns);
    } else {
      var row := db.incidents[i].(acknowledgedAt := Some(now));
      var queued := QueueEvidence(db.(incidents := db.incidents[i := row]), i);
      MarkedRowsAck(db, i, row);
      QueuedSync(db, i, row, ns);
      var db2 := RecomputeAck(queued, i);
      assert forall j :: Acknowledged(db2, j) == Acknowledged(queued, j);
      SyncAgreesFrame(queued, db2, ns, ns);
    }
  }

  lemma QueuedSync(db: Db, i: Id, row: Incident, ns: set<Id>)
    requires i in db.incidents && row.acknowledgedAt.Some?
    requires UpstreamAck(db, Some(i)) && SyncAgrees(db, ns) && i in ns
    ensures var db2 := QueueEvidence(db.(incidents := db.incidents[i := row]), i);
      UpstreamAck(db2, None) && SyncAgrees(db2, ns)
  {
    var db2 := QueueEvidence(db.(incidents := db.incidents[i := row]), i);
    forall j | j in db2.incidents && j !in ns && Acknowledged(db2, j)
      ensures db2.incidents[j].ackSync == DerivedSync(db2.evidence, j)
    {
      DerivedSyncFrame(db.evidence, db2.evidence, {i}, j);
    }
  }

  lemma RefreshRowAck(db: Db, e: Id, f: Fact, ns: set<Id>)
    requires AckOk(db, ns) && ValidSeverity(f.severity) && e in db.evidence && Linked(db)
    ensures var db2, ns2 := RefreshRow(db, e, f), ns + {db.evidence[e].incident};
      && RowsAck(db2) && SyncAgrees(db2, ns2)
      && UpstreamAck(db2, if f.upstream then Some(db.evidence[e].incident) else None)
  {
    var db2, ns2 := RefreshRow(db, e, f), ns + {db.evidence[e].incident};
    assert forall j :: Acknowledged(db2, j) == Acknowledged(db, j);
    forall x | x in db2.evidence
      ensures RowAck(db2.evidence[x], Acknowledged(db2, db2.evidence[x].incident))
    {
      assert RowAck(db.evidence[x], Acknowledged(db, db.evidence[x].incident));
    }
    SyncAgreesFrame(db, db2, ns, ns2);
  }

  lemma RefreshAck(db: Db, e: Id, f: Fact, ns: set<Id>, now: Time)
    requires AckOk(db, ns) && ValidSeverity(f.severity) && e in db.evidence && Linked(db)
    ensures AckOk(Refresh(db, e, f, now), ns + {db.evidence[e].incident})
  {
    RefreshRowAck(db, e, f, ns);
    if f.upstream {
      AckFromEvidenceAck(RefreshRow(db, e, f), db.evidence[e].incident, ns + {db.evidence[e].incident}, now);
    }
  }

  lemma InsertEvidenceRows(db: Db, f: Fact, i: Id, p: Id)
    requires RowsAck(db) && ValidSeverity(f.severity) && i in db.incidents && Linked(db)
    ensures RowsAck(InsertEvidence(db, f, i, p))
  {
    hide Linked;
    var db2 := InsertEvidence(db, f, i, p);
    assert forall j :: Acknowledged(db2, j) == Acknowledged(db, j);
    forall x | x in db2.evidence
      ensures RowAck(db2.evidence[x], Acknowledged(db2, db2.evidence[x].incident))
    {
      if x != db.next {
        assert RowAck(db.evidence[x], Acknowledged(db, db.evidence[x].incident));
      }
    }
  }

  lemma InsertEvidenceUpstream(db: Db, f: Fact, i: Id, p: Id)
    requires UpstreamAck(db, None) && ValidSeverity(f.severity) && i in db.incidents && Linked(db)
    ensures UpstreamAck(InsertEvidence(db, f, i, p), if f.upstream then Some(i) else None)
  {
    hide Linked;
    var db2 := InsertEvidence(db, f, i, p);
    assert forall j :: Acknowledged(db2, j) == Acknowledged(db, j);
  }

  lemma InsertEvidenceSync(db: Db, f: Fact, i: Id, p: Id, ns: set<Id>)
    requires SyncAgrees(db, ns) && Shape(db) && ValidSeverity(f.severity) && i in db.incidents && Linked(db) && i in ns
    ensures SyncAgrees(InsertEvidence(db, f, i, p), ns)
  {
    hide SyncAgrees, IncidentRow, ImpactRow, EvidenceRow;
    SyncAgreesFrame(db, InsertEvidence(db, f, i, p), ns, ns);
  }

  lemma InsertEvidenceAck(db: Db, f: Fact, i: Id, p: Id, ns: set<Id>)
    requires AckOk(db, ns) && Shape(db) && ValidSeverity(f.severity) && i in db.incidents && Linked(db) && i in ns
    ensures var db2 := InsertEvidence(db, f, i, p);
      RowsAck(db2) && SyncAgrees(db2, ns) && UpstreamAck(db2, if f.upstream then Some(i) else None)
  {
    hide InsertEvidence, RowsAck, SyncAgrees, UpstreamAck, Shape;
    InsertEvidenceRows(db, f, i, p);
    InsertEvidenceUpstream(db, f, i, p);
    InsertEvidenceSync(db, f, i, p, ns);
  }

  lemma AddEvidenceAck(db: Db, f: Fact, i: Id, p: Id, ns: set<Id>, now: Time)
    requires AckOk(db, ns) && Shape(db) && ValidSeverity(f.severity) && i in db.incidents && Linked(db) && i in ns
    ensures AckOk(AddEvidence(db, f, i, p, now), ns)
  {
    InsertEvidenceAck(db, f, i, p, ns);
    if f.upstream {
      AckFromEvidenceAck(InsertEvidence(db, f, i, p), i, ns, now);
    }
  }

  lemma SameAcksKeep(db: Db, db2: Db, ns: set<Id>, ns2: set<Id>)
    requires AckOk(db, ns) && Linked(db) && ns <= ns2
    requires db2.evidence == db.evidence && SameAcks(db.incidents, db2.incidents, ns2)
    ensures AckOk(db2, ns2)
  {
    forall e | e in db.evidence
      ensures Acknowledged(db2, db.evidence[e].incident) == Acknowledged(db, db.evidence[e].incident)
    {
      assert db.evidence[e].incident in db.incidents;
    }
    SyncAgreesFrame(db, db2, ns, ns2);
  }

  lemma JoinAcks(db: Db, i: Id, f: Fact, ns: set<Id>)
    requires ValidSeverity(f.severity) && i in db.incidents
    ensures SameAcks(db.incidents, Join(db, i, f).db.incidents, ns)
  {
  }

  lemma CreateAcks(db: Db, f: Fact, ns: set<Id>, now: Time)
    requires Shape(db) && ValidSeverity(f.severity)
    ensures SameAcks(db.incidents, Create(db, f, now).db.incidents, ns)
  {
  }

  lemma OpenImpactAcks(db: Db, f: Fact, ns: set<Id>, now: Time)
    requires Shape(db) && ValidSeverity(f.severity) && Linked(db)
    ensures SameAcks(db.incidents, OpenImpact(db, f, now).db.incidents, ns)
  {
    match ActiveImpact(db, f)
    case Some(p) =>
    case None =>
      match PropagatingIncident(db, f)
      case Some(i) => JoinAcks(db, i, f, ns);
      case None =>
        match ResumableImpact(db, f, now)
        case Some(p) =>
        case None => CreateAcks(db, f, ns, now);
  }

  lemma OpenFactAck(db: Db, f: Fact, ns: set<Id>, now: Time)
    requires AckOk(db, ns) && Shape(db) && Linked(db) && ValidSeverity(f.severity)
    ensures match OpenFact(db, f, now)
      case Touched(db2, i, _) => AckOk(db2, ns + {i})
      case Ignored(db2) => AckOk(db2, ns)
      case Skipped(db2) => AckOk(db2, ns)
      case Failed(_) => true
  {
    if !Suppressed(db.evidence, f.identity) && f.target in db.targets && db.targets[f.target] == Live {
      var o := OpenImpact(db, f, now);
      OpenImpactShape(db, f, now);
      OpenImpactAcks(db, f, ns + {o.incident}, now);
      SameAcksKeep(db, o.db, ns, ns + {o.incident});
      AddEvidenceAck(o.db, f, o.incident, o.impact, ns + {o.incident}, now);
    }
  }

  lemma ApplyFactAck(db: Db, f: Fact, ns: set<Id>, now: Time)
    requires AckOk(db, ns) && Shape(db) && Linked(db)
    ensures match ApplyFact(db, f, now)
      case Touched(db2, i, _) => AckOk(db2, ns + {i})
      case Ignored(db2) => AckOk(db2, ns)
      case Skipped(db2) => AckOk(db2, ns)
      case Failed(_) => true
  {
    if Complete(f) {
      match ActiveRow(db.evidence, f.identity)
      case None => OpenFactAck(db, f, ns, now);
      case Some(e) =>
        var row := db.evidence[e];
        assert row.invalidatedAt.None?;
        if row.target == f.target && db.incidents[row.incident].nature.key == f.nature.key {
          RefreshAck(db, e, f, ns, now);
        } else {
          var db1 := Retire(db, e, now);
          RetireAck(db, e, ns, now);
          RetireShape(db, e, now);
          OpenFactAck(db1, f, ns, now);
        }
    }
  }
}
