/** Stored aggregates equal the ones derived from the rows they summarise. */
module IncidentAggregates {
  import opened Common
  import opened IncidentModel
  import opened IncidentCycle
  import opened IncidentInvariants

  /** An impact is active exactly while live evidence sustains it, at the severity of the gravest. */
  ghost predicate ImpactAgrees(evidence: map<Id, Evidence>, p: Id, row: Impact)
  {
    && (row.status == Active <==> exists e :: e in evidence && Sustains(evidence[e], p))
    && (row.status == Active ==>
          && (exists e :: e in evidence && Sustains(evidence[e], p) && evidence[e].severity == row.severity)
          && (forall e :: e in evidence && Sustains(evidence[e], p) ==> evidence[e].severity <= row.severity))
  }

  /** Counts, severity and status of an incident are those of its impacts. */
  ghost predicate IncidentAgrees(impacts: map<Id, Impact>, i: Id, row: Incident)
  {
    && row.activeCount == |ActiveOf(impacts, i)| && row.impactCount == |ImpactsOf(impacts, i)|
    && row.activeCount <= row.maxAffected && (row.activeCount >= 20 ==> row.extended)
    && (row.activeCount > 0 ==>
          && row.severity in ActiveSeverities(impacts, i)
          && (forall s :: s in ActiveSeverities(impacts, i) ==> s <= row.severity))
    && (row.status == Resolved <==> row.propagation == Closed && row.activeCount == 0)
  }

  /** The incidents `ns` include those of the impacts `ps`. */
  ghost predicate Covered(db: Db, ps: set<Id>, ns: set<Id>)
  {
    forall p :: p in db.impacts && p in ps ==> db.impacts[p].incident in ns
  }

  /** Every impact outside `ps` and every incident outside `ns` agrees with the rows it summarises. */
  ghost predicate Clean(db: Db, ps: set<Id>, ns: set<Id>)
  {
    && (forall p :: p in db.impacts && p !in ps ==> ImpactAgrees(db.evidence, p, db.impacts[p]))
    && Covered(db, ps, ns)
    && (forall i :: i in db.incidents && i !in ns ==> IncidentAgrees(db.impacts, i, db.incidents[i]))
  }

  // ----- Recomputation establishes agreement -----

  lemma DerivedImpactAgrees(evidence: map<Id, Evidence>, p: Id, row: Impact, now: Time)
    ensures ImpactAgrees(evidence, p, DerivedImpact(evidence, p, row, now))
  {
    var live := LiveSeverities(evidence, p);
    assert forall e :: e in evidence && Sustains(evidence[e], p) ==> evidence[e].severity in live;
    if live != {} {
      TopIsGreatest(live);
    }
  }

  lemma ActiveSeveritiesEmpty(impacts: map<Id, Impact>, i: Id)
    ensures ActiveSeverities(impacts, i) == {} <==> |ActiveOf(impacts, i)| == 0
  {
    if |ActiveOf(impacts, i)| != 0 {
      var p :| p in ActiveOf(impacts, i);
      assert impacts[p].severity in ActiveSeverities(impacts, i);
    } else {
      assert ActiveOf(impacts, i) == {};
      assert forall p :: p in impacts && impacts[p].incident == i ==> p in ActiveOf(impacts, i) || impacts[p].status != Active;
    }
  }

  lemma AggregatedAgrees(evidence: map<Id, Evidence>, impacts: map<Id, Impact>, live: int, i: Id, row: Incident,
      now: Time)
    ensures IncidentAgrees(impacts, i, WithSync(evidence, i, Aggregated(impacts, live, i, row, now)))
  {
    ActiveSeveritiesEmpty(impacts, i);
    if ActiveSeverities(impacts, i) != {} {
      TopIsGreatest(ActiveSeverities(impacts, i));
    }
  }

  // ----- What leaves agreement alone -----

  /** The columns of an evidence row that its impact depends on. */
  predicate SameLife(row: Evidence, row2: Evidence)
  {
    && row.impact == row2.impact && row.active == row2.active
    && row.invalidatedAt == row2.invalidatedAt && row.severity == row2.severity
  }

  /** The columns of an incident row that agreement depends on. */
  predicate SameTally(row: Incident, row2: Incident)
  {
    && row.activeCount == row2.activeCount && row.impactCount == row2.impactCount
    && row.maxAffected == row2.maxAffected && row.extended == row2.extended
    && row.severity == row2.severity && row.status == row2.status && row.propagation == row2.propagation
  }

  ghost predicate SameEvidence(evidence: map<Id, Evidence>, evidence2: map<Id, Evidence>, ps: set<Id>)
  {
    && (forall e :: e in evidence && evidence[e].impact !in ps ==> e in evidence2 && SameLife(evidence[e], evidence2[e]))
    && (forall e :: e in evidence2 && evidence2[e].impact !in ps ==> e in evidence && SameLife(evidence[e], evidence2[e]))
  }

  ghost predicate SameImpacts(impacts: map<Id, Impact>, impacts2: map<Id, Impact>, ns: set<Id>)
  {
    && (forall p :: p in impacts && impacts[p].incident !in ns ==> p in impacts2 && impacts[p] == impacts2[p])
    && (forall p :: p in impacts2 && impacts2[p].incident !in ns ==> p in impacts && impacts[p] == impacts2[p])
  }

  lemma ImpactAgreesFrame(evidence: map<Id, Evidence>, evidence2: map<Id, Evidence>, ps: set<Id>, p: Id, row: Impact)
    requires SameEvidence(evidence, evidence2, ps) && p !in ps
    requires ImpactAgrees(evidence, p, row)
    ensures ImpactAgrees(evidence2, p, row)
  {
    assert forall e :: e in evidence && Sustains(evidence[e], p) ==> e in evidence2 && Sustains(evidence2[e], p);
    assert forall e :: e in evidence2 && Sustains(evidence2[e], p) ==> e in evidence && Sustains(evidence[e], p);
  }

  lemma IncidentAgreesFrame(impacts: map<Id, Impact>, impacts2: map<Id, Impact>, ns: set<Id>, i: Id, row: Incident,
      row2: Incident)
    requires SameImpacts(impacts, impacts2, ns) && i !in ns && SameTally(row, row2)
    requires IncidentAgrees(impacts, i, row)
    ensures IncidentAgrees(impacts2, i, row2)
  {
    assert ActiveOf(impacts, i) == ActiveOf(impacts2, i);
    assert ImpactsOf(impacts, i) == ImpactsOf(impacts2, i);
    assert ActiveSeverities(impacts, i) == ActiveSeverities(impacts2, i);
  }

  /** Changes confined to the impacts `ps2` and the incidents `ns2` leave everything else clean. */
  ghost predicate Confined(db: Db, db2: Db, ps2: set<Id>, ns2: set<Id>)
  {
    && SameEvidence(db.evidence, db2.evidence, ps2) && SameImpacts(db.impacts, db2.impacts, ns2)
    && (forall p :: p in db2.impacts && p in ps2 ==> db2.impacts[p].incident in ns2)
    && (forall p :: p in db2.impacts && p !in ps2 ==> p in db.impacts && db.impacts[p] == db2.impacts[p])
    && (forall i :: i in db2.incidents && i !in ns2 ==> i in db.incidents && SameTally(db.incidents[i], db2.incidents[i]))
  }

  lemma ConfinedClean(db: Db, db2: Db, ps: set<Id>, ns: set<Id>, ps2: set<Id>, ns2: set<Id>)
    requires Clean(db, ps, ns) && Confined(db, db2, ps2, ns2) && ps <= ps2 && ns <= ns2
    ensures Clean(db2, ps2, ns2)
  {
    forall p | p in db2.impacts && p !in ps2
      ensures ImpactAgrees(db2.evidence, p, db2.impacts[p])
    {
      ImpactAgreesFrame(db.evidence, db2.evidence, ps2, p, db.impacts[p]);
    }
    forall i | i in db2.incidents && i !in ns2
      ensures IncidentAgrees(db2.impacts, i, db2.incidents[i])
    {
      IncidentAgreesFrame(db.impacts, db2.impacts, ns2, i, db.incidents[i], db2.incidents[i]);
    }
  }

  // ----- The statements of a transaction -----

  lemma RecomputeImpactsClean(db: Db, qs: set<Id>, ps: set<Id>, ns: set<Id>, now: Time)
    requires Clean(db, ps, ns)
    requires forall p :: p in db.impacts && p in qs ==> db.impacts[p].incident in ns
    ensures Clean(RecomputeImpacts(db, qs, now), ps - qs, ns)
  {
    var db2 := RecomputeImpacts(db, qs, now);
    forall p | p in db2.impacts && p !in ps - qs
      ensures ImpactAgrees(db2.evidence, p, db2.impacts[p])
    {
      if p in qs {
        DerivedImpactAgrees(db.evidence, p, db.impacts[p], now);
      }
    }
    forall i | i in db2.incidents && i !in ns
      ensures IncidentAgrees(db2.impacts, i, db2.incidents[i])
    {
      IncidentAgreesFrame(db.impacts, db2.impacts, ns, i, db.incidents[i], db2.incidents[i]);
    }
  }

  lemma RecomputeIncidentsClean(db: Db, ms: set<Id>, ps: set<Id>, ns: set<Id>, ns2: set<Id>, now: Time)
    requires Clean(db, ps, ns) && ns - ms <= ns2
    requires forall p :: p in db.impacts && p in ps ==> db.impacts[p].incident in ns2
    ensures Clean(RecomputeIncidents(db, ms, now), ps, ns2)
  {
    var db2 := RecomputeIncidents(db, ms, now);
    forall i | i in db2.incidents && i !in ns2
      ensures IncidentAgrees(db2.impacts, i, db2.incidents[i])
    {
      if i in ms {
        AggregatedAgrees(db.evidence, db.impacts, LiveTargetCount(db.targets), i, db.incidents[i], now);
      }
    }
  }

  /** Recomputing the touched rows cleans them. */
  lemma SettleClean(db: Db, ps: set<Id>, ns: set<Id>, now: Time)
    requires Clean(db, ps, ns)
    ensures Clean(Settle(db, ps, ns, now), {}, {})
  {
    RecomputeImpactsClean(db, ps, ps, ns, now);
    assert ps - ps == {};
    RecomputeIncidentsClean(RecomputeImpacts(db, ps, now), ns, {}, ns, {}, now);
  }

  lemma AdvanceDueClean(db: Db, now: Time)
    requires Clean(db, {}, {})
    ensures Clean(AdvanceDue(db, now), {}, {})
  {
    RecomputeIncidentsClean(db, Due(db, now), {}, {}, {}, now);
  }

  lemma AckOnlyClean(db: Db, db2: Db, ps: set<Id>, ns: set<Id>)
    requires Clean(db, ps, ns) && AckOnly(db, db2)
    ensures Clean(db2, ps, ns)
  {
    forall e | e in db.evidence ensures SameLife(db.evidence[e], db2.evidence[e]) {
      assert SameButSync(db.evidence[e], db2.evidence[e]);
    }
    forall i | i in db.incidents ensures SameTally(db.incidents[i], db2.incidents[i]) {
      assert SameButAck(db.incidents[i], db2.incidents[i]);
    }
    assert Confined(db, db2, ps, ns);
    ConfinedClean(db, db2, ps, ns, ps, ns);
  }

  lemma ResolveRowsClean(db: Db, es: set<Id>, ps: set<Id>, ns: set<Id>, ps2: set<Id>, ns2: set<Id>, now: Time)
    requires Clean(db, ps, ns) && ps <= ps2 && ns <= ns2
    requires forall e :: e in es && e in db.evidence ==> db.evidence[e].impact in ps2
    requires forall p :: p in db.impacts && p in ps2 ==> db.impacts[p].incident in ns2
    ensures Clean(ResolveRows(db, es, now), ps2, ns2)
  {
    assert Confined(db, ResolveRows(db, es, now), ps2, ns2);
    ConfinedClean(db, ResolveRows(db, es, now), ps, ns, ps2, ns2);
  }

  /** What applying a fact keeps, with `ps` and `ns` the rows still to be recomputed. */
  ghost predicate Steady(db: Db, ps: set<Id>, ns: set<Id>)
  {
    Shape(db) && Clean(db, ps, ns)
  }

  lemma AckFromEvidenceSteady(db: Db, i: Id, ps: set<Id>, ns: set<Id>, now: Time)
    requires Steady(db, ps, ns) && Linked(db) && i in db.incidents
    ensures Steady(AckFromEvidence(db, i, now), ps, ns)
  {
    AckFromEvidenceOnly(db, i, now);
    AckOnlyShape(db, AckFromEvidence(db, i, now));
    AckOnlyClean(db, AckFromEvidence(db, i, now), ps, ns);
  }

  lemma RefreshRowConfined(db: Db, e: Id, f: Fact, ps: set<Id>, ns: set<Id>)
    requires Shape(db) && Linked(db) && ValidSeverity(f.severity) && e in db.evidence
    requires db.evidence[e].impact in ps && forall p :: p in db.impacts && p in ps ==> db.impacts[p].incident in ns
    ensures Confined(db, RefreshRow(db, e, f), ps, ns)
  {
    hide IncidentRow, EvidenceRow, ImpactRow;
    assert SameEvidence(db.evidence, RefreshRow(db, e, f).evidence, ps);
  }

  lemma RefreshRowSteady(db: Db, e: Id, f: Fact, ps: set<Id>, ns: set<Id>)
    requires Steady(db, ps, ns) && Linked(db) && ValidSeverity(f.severity) && e in db.evidence
    ensures Steady(RefreshRow(db, e, f), ps + {db.evidence[e].impact}, ns + {db.evidence[e].incident})
  {
    RefreshRowShape(db, e, f);
    var ps2, ns2 := ps + {db.evidence[e].impact}, ns + {db.evidence[e].incident};
    RefreshRowConfined(db, e, f, ps2, ns2);
    ConfinedClean(db, RefreshRow(db, e, f), ps, ns, ps2, ns2);
  }

  lemma RefreshSteady(db: Db, e: Id, f: Fact, ps: set<Id>, ns: set<Id>, now: Time)
    requires Steady(db, ps, ns) && Linked(db) && ValidSeverity(f.severity) && e in db.evidence
    ensures Steady(Refresh(db, e, f, now), ps + {db.evidence[e].impact}, ns + {db.evidence[e].incident})
  {
    RefreshRowSteady(db, e, f, ps, ns);
    if f.upstream {
      AckFromEvidenceSteady(RefreshRow(db, e, f), db.evidence[e].incident,
                            ps + {db.evidence[e].impact}, ns + {db.evidence[e].incident}, now);
    }
  }

  lemma RetireSteady(db: Db, e: Id, ps: set<Id>, ns: set<Id>, now: Time)
    requires Steady(db, ps, ns) && e in db.evidence
    ensures Steady(Retire(db, e, now), ps, ns)
  {
    hide ImpactAgrees, IncidentAgrees, Aggregated, WithSync, ImpactRow, IncidentRow, EvidenceRow;
    var row := db.evidence[e];
    var closed := ResolveRows(db, {e}, now);
    RetireShape(db, e, now);
    ResolveRowsClean(db, {e}, ps, ns, ps + {row.impact}, ns + {row.incident}, now);
    RecomputeImpactsClean(closed, {row.impact}, ps + {row.impact}, ns + {row.incident}, now);
    var settled := RecomputeImpacts(closed, {row.impact}, now);
    var left := ps + {row.impact} - {row.impact};
    RecomputeIncidentsClean(settled, {row.incident}, left, ns + {row.incident}, ns, now);
    assert Clean(Retire(db, e, now), left, ns);
    CleanWider(Retire(db, e, now), left, ps, ns);
  }

  lemma CleanWider(db: Db, ps: set<Id>, ps2: set<Id>, ns: set<Id>)
    requires Clean(db, ps, ns) && ps <= ps2
    requires forall p :: p in db.impacts && p in ps2 ==> db.impacts[p].incident in ns
    ensures Clean(db, ps2, ns)
  {
  }

  lemma OpenImpactSteady(db: Db, f: Fact, ps: set<Id>, ns: set<Id>, now: Time)
    requires Steady(db, ps, ns) && Linked(db) && ValidSeverity(f.severity) && f.target in db.targets
    ensures var o := OpenImpact(db, f, now); Steady(o.db, ps + {o.impact}, ns + {o.incident})
  {
    OpenImpactShape(db, f, now);
    OpenImpactConfined(db, f, ps, ns, now);
    var o := OpenImpact(db, f, now);
    ConfinedClean(db, o.db, ps, ns, ps + {o.impact}, ns + {o.incident});
  }

  lemma SelfConfined(db: Db, ps: set<Id>, ns: set<Id>)
    requires Shape(db) && Covered(db, ps, ns)
    ensures Confined(db, db, ps, ns)
  {
  }

  lemma OpenImpactConfined(db: Db, f: Fact, ps: set<Id>, ns: set<Id>, now: Time)
    requires Shape(db) && Covered(db, ps, ns) && Linked(db) && ValidSeverity(f.severity) && f.target in db.targets
    ensures var o := OpenImpact(db, f, now); Confined(db, o.db, ps + {o.impact}, ns + {o.incident})
  {
    hide Join, Resume, Create, Confined, Propagates, Resumable, PropagatingIncident;
    match ActiveImpact(db, f)
    case Some(p) => SelfConfined(db, ps + {p}, ns + {db.impacts[p].incident});
    case None =>
      match PropagatingIncident(db, f)
      case Some(i) => JoinConfined(db, i, f, ps, ns);
      case None =>
        match ResumableImpact(db, f, now)
        case Some(p) => ResumeConfined(db, p, f, ps, ns, now);
        case None => CreateConfined(db, f, ps, ns, now);
  }

  lemma JoinConfined(db: Db, i: Id, f: Fact, ps: set<Id>, ns: set<Id>)
    requires Shape(db) && Covered(db, ps, ns) && ValidSeverity(f.severity) && i in db.incidents
    ensures var o := Join(db, i, f); Confined(db, o.db, ps + {o.impact}, ns + {o.incident})
  {
    hide Rejoin, Spread, Confined;
    match ImpactOn(db.impacts, i, f.target)
    case Some(p) => RejoinConfined(db, i, p, f, ps, ns);
    case None => SpreadConfined(db, i, f, ps, ns);
  }

  lemma RejoinConfined(db: Db, i: Id, p: Id, f: Fact, ps: set<Id>, ns: set<Id>)
    requires Covered(db, ps, ns) && ValidSeverity(f.severity) && i in db.incidents && p in db.impacts && db.impacts[p].incident == i
    ensures var o := Rejoin(db, i, p, f); Confined(db, o.db, ps + {o.impact}, ns + {o.incident})
  {
    hide EvidenceWindow, ExtendPropagation;
  }

  lemma SpreadConfined(db: Db, i: Id, f: Fact, ps: set<Id>, ns: set<Id>)
    requires Shape(db) && Covered(db, ps, ns) && ValidSeverity(f.severity) && i in db.incidents
    ensures var o := Spread(db, i, f); Confined(db, o.db, ps + {o.impact}, ns + {o.incident})
  {
    hide EvidenceWindow, ExtendPropagation, IncidentRow, EvidenceRow, ImpactRow;
  }

  lemma ResumeConfined(db: Db, p: Id, f: Fact, ps: set<Id>, ns: set<Id>, now: Time)
    requires Shape(db) && Covered(db, ps, ns) && ValidSeverity(f.severity) && p in db.impacts
    ensures var o := Resume(db, p, f, now); Confined(db, o.db, ps + {o.impact}, ns + {o.incident})
  {
  }

  lemma CreateConfined(db: Db, f: Fact, ps: set<Id>, ns: set<Id>, now: Time)
    requires Shape(db) && Covered(db, ps, ns) && ValidSeverity(f.severity)
    ensures var o := Create(db, f, now); Confined(db, o.db, ps + {o.impact}, ns + {o.incident})
  {
  }

  lemma InsertEvidenceConfined(db: Db, f: Fact, i: Id, p: Id, ps: set<Id>, ns: set<Id>)
    requires Shape(db) && Linked(db) && ValidSeverity(f.severity) && i in db.incidents && p in ps && i in ns
    requires forall q :: q in db.impacts && q in ps ==> db.impacts[q].incident in ns
    ensures Confined(db, InsertEvidence(db, f, i, p), ps, ns)
  {
    hide EvidenceRow, ImpactRow, IncidentRow;
  }

  lemma InsertEvidenceSteady(db: Db, f: Fact, i: Id, p: Id, ps: set<Id>, ns: set<Id>)
    requires Steady(db, ps, ns) && Linked(db) && ValidSeverity(f.severity) && i in db.incidents
    requires p in db.impacts && db.impacts[p].incident == i && db.impacts[p].target == f.target
    requires p in ps && i in ns
    ensures Steady(InsertEvidence(db, f, i, p), ps, ns)
  {
    InsertEvidenceShape(db, f, i, p);
    InsertEvidenceConfined(db, f, i, p, ps, ns);
    ConfinedClean(db, InsertEvidence(db, f, i, p), ps, ns, ps, ns);
  }

  lemma AddEvidenceSteady(db: Db, f: Fact, i: Id, p: Id, ps: set<Id>, ns: set<Id>, now: Time)
    requires Steady(db, ps, ns) && Linked(db) && ValidSeverity(f.severity) && i in db.incidents
    requires p in db.impacts && db.impacts[p].incident == i && db.impacts[p].target == f.target
    requires p in ps && i in ns
    ensures Steady(AddEvidence(db, f, i, p, now), ps, ns)
  {
    InsertEvidenceSteady(db, f, i, p, ps, ns);
    if f.upstream {
      AckFromEvidenceSteady(InsertEvidence(db, f, i, p), i, ps, ns, now);
    }
  }

  lemma OpenFactSteady(db: Db, f: Fact, ps: set<Id>, ns: set<Id>, now: Time)
    requires Steady(db, ps, ns) && Linked(db) && ValidSeverity(f.severity)
    ensures match OpenFact(db, f, now)
      case Touched(db2, i, p) => Steady(db2, ps + {p}, ns + {i})
      case Ignored(db2) => Steady(db2, ps, ns)
      case Skipped(db2) => Steady(db2, ps, ns)
      case Failed(_) => true
  {
    if !Suppressed(db.evidence, f.identity) && f.target in db.targets && db.targets[f.target] == Live {
      var o := OpenImpact(db, f, now);
      OpenImpactShape(db, f, now);
      OpenImpactSteady(db, f, ps, ns, now);
      AddEvidenceSteady(o.db, f, o.incident, o.impact, ps + {o.impact}, ns + {o.incident}, now);
    }
  }

  lemma ApplyFactSteady(db: Db, f: Fact, ps: set<Id>, ns: set<Id>, now: Time)
    requires Steady(db, ps, ns) && Linked(db)
    ensures match ApplyFact(db, f, now)
      case Touched(db2, i, p) => Steady(db2, ps + {p}, ns + {i})
      case Ignored(db2) => Steady(db2, ps, ns)
      case Skipped(db2) => Steady(db2, ps, ns)
      case Failed(_) => true
  {
    if Complete(f) {
      match ActiveRow(db.evidence, f.identity)
      case None => OpenFactSteady(db, f, ps, ns, now);
      case Some(e) =>
        var row := db.evidence[e];
        assert row.invalidatedAt.None?;
        if row.target == f.target && db.incidents[row.incident].nature.key == f.nature.key {
          RefreshSteady(db, e, f, ps, ns, now);
        } else {
          RetireSteady(db, e, ps, ns, now);
          RetireShape(db, e, now);
          OpenFactSteady(Retire(db, e, now), f, ps, ns, now);
        }
    }
  }
}
