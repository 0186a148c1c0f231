/** Which incident a fact goes to, told from the rows: an active one, one still spreading, one to resume, or a new one. */
module IncidentGrouping {
  import opened Common
  import opened Trigger
  import opened IncidentModel
  import opened IncidentCycle
  import opened IncidentSnapshot
  import opened IncidentInvariants
  import opened IncidentAggregates
  import opened IncidentIdentities
  import opened IncidentTransactions
  import opened IncidentRuns
  import opened IncidentJoins

  // ----- The rows a fact may meet -----

  /** Impact `p` is active on the target of the fact, in an active incident of its nature. */
  predicate Hosted(db: Db, f: Fact, p: Id)
  {
    && p in db.impacts && db.impacts[p].target == f.target && db.impacts[p].status == Active
    && db.impacts[p].incident in db.incidents
    && var row := db.incidents[db.impacts[p].incident];
    row.status == Active && row.nature.key == f.nature.key
  }

  /** Incident `i` is active, still open to facts of this nature, and was so when the fact opened. */
  predicate Spreading(db: Db, f: Fact, i: Id)
  {
    && f.nature.eligible && i in db.incidents
    && var row := db.incidents[i];
    && row.status == Active && row.propagation == Open && row.nature.eligible
    && row.nature.scope == f.nature.scope && row.nature.namespace == f.nature.namespace
    && row.nature.fingerprint == f.nature.fingerprint
    && row.openedAt <= f.openedAt && f.openedAt <= row.endsAt
  }

  /** Impact `p` is on the target of the fact, in an incident of its nature. */
  predicate Related(db: Db, f: Fact, p: Id)
  {
    && p in db.impacts && db.impacts[p].target == f.target && db.impacts[p].incident in db.incidents
    && db.incidents[db.impacts[p].incident].nature.key == f.nature.key
  }

  /** Impact `p` is alone in a resolved incident of the nature, resolved at most six hours before the fact, the latest there. */
  ghost predicate Dormant(db: Db, f: Fact, p: Id, now: Time)
  {
    && Related(db, f, p)
    && var row := db.incidents[db.impacts[p].incident];
    && row.status == Resolved && row.impactCount == 1 && row.resolvedAt.Some?
    && f.openedAt <= row.resolvedAt.value + 6 * 3600 && row.resolvedAt.value <= now
    && forall q :: Related(db, f, q) ==> db.incidents[db.impacts[q].incident].openedAt <= row.openedAt
  }

  ghost predicate NoHost(db: Db, f: Fact) { forall p :: !Hosted(db, f, p) }

  ghost predicate NoSpread(db: Db, f: Fact) { forall i :: !Spreading(db, f, i) }

  // ----- Where it goes -----

  lemma HostsMean(db: Db, f: Fact)
    ensures forall p :: Hosted(db, f, p) <==> Hosts(db, p, f.target, f.nature.key)
    ensures NoHost(db, f) <==> ActiveImpact(db, f).None?
  {
    hide ActiveImpact;
  }

  lemma SpreadsMean(db: Db, f: Fact)
    ensures NoSpread(db, f) <==> PropagatingIncident(db, f).None?
    ensures forall i :: Spreading(db, f, i) ==> PropagatingIncident(db, f).Some?
  {
    var r := PropagatingIncident(db, f);
    if r.Some? {
      assert Spreading(db, f, r.value);
    }
    assert forall i :: Spreading(db, f, i) ==> Propagates(db.incidents[i], f);
  }

  /** The active impact of the spot that opened last takes the fact; nothing else changes. */
  lemma HostTakesFact(db: Db, f: Fact, now: Time, p: Id)
    requires Linked(db) && ValidSeverity(f.severity) && Hosted(db, f, p)
    ensures var o := OpenImpact(db, f, now);
      && o.db == db && Hosted(db, f, o.impact) && o.incident == db.impacts[o.impact].incident
      && db.impacts[p].openedAt <= db.impacts[o.impact].openedAt
  {
    HostsMean(db, f);
    assert Hosts(db, p, f.target, f.nature.key);
    var rows := map q | q in db.impacts && Hosts(db, q, f.target, f.nature.key) :: -db.impacts[q].openedAt;
    assert p in rows && ActiveImpact(db, f) == PickFirst(rows);
  }

  /** Without one, the incident still spreading that opened first takes it, through an active impact on its target. */
  lemma SpreadTakesFact(db: Db, f: Fact, now: Time, i: Id)
    requires Linked(db) && ValidSeverity(f.severity) && NoHost(db, f) && Spreading(db, f, i)
    ensures var o := OpenImpact(db, f, now);
      && Spreading(db, f, o.incident) && db.incidents[o.incident].openedAt <= db.incidents[i].openedAt
      && JoinedBy(db, o, f)
  {
    hide ActiveImpact, Join;
    HostsMean(db, f);
    SpreadsMean(db, f);
    var rows := map j | j in db.incidents && Propagates(db.incidents[j], f) :: db.incidents[j].openedAt;
    assert i in rows && PropagatingIncident(db, f) == PickFirst(rows);
    JoiningFact(db, PropagatingIncident(db, f).value, f);
  }

  /** The impact of the incident on the target is active with the severity of the fact, and the window slides with it. */
  ghost predicate JoinedBy(db: Db, o: Opened, f: Fact)
  {
    && o.incident in db.incidents && o.incident in o.db.incidents && o.impact in o.db.impacts
    && (forall p :: p in db.impacts && p != o.impact ==> p in o.db.impacts && o.db.impacts[p] == db.impacts[p])
    && (forall i :: i in db.incidents && i != o.incident ==> i in o.db.incidents && o.db.incidents[i] == db.incidents[i])
    && o.db.incidents.Keys == db.incidents.Keys && o.db.impacts.Keys == db.impacts.Keys + {o.impact}
    && var row, row2, p := db.incidents[o.incident], o.db.incidents[o.incident], o.db.impacts[o.impact];
    && p.incident == o.incident && p.target == f.target && p.status == Active && p.severity == f.severity && p.resolvedAt.None?
    && row2 == row.(lastImpactAt := row2.lastImpactAt, window := row2.window, endsAt := row2.endsAt)
    && (row2.lastImpactAt == row.lastImpactAt || row2.lastImpactAt == f.openedAt)
    && row.lastImpactAt <= row2.lastImpactAt && f.openedAt <= row2.lastImpactAt
    && row.window <= row2.window && EvidenceWindow(db, f) <= row2.window && row2.window in {row.window, EvidenceWindow(db, f)}
    && row.endsAt <= row2.endsAt && row2.lastImpactAt + row2.window <= row2.endsAt
    && row2.endsAt in {row.endsAt, row2.lastImpactAt + row2.window}
  }

  lemma JoiningFact(db: Db, i: Id, f: Fact)
    requires ValidSeverity(f.severity) && i in db.incidents && db.incidents[i].propagation == Open
    ensures Join(db, i, f).incident == i && JoinedBy(db, Join(db, i, f), f)
  {
    hide EvidenceWindow, JoinedBy;
    match ImpactOn(db.impacts, i, f.target)
    case Some(p) => RejoiningFact(db, i, p, f);
    case None => SpreadingFact(db, i, f);
  }

  lemma RejoiningFact(db: Db, i: Id, p: Id, f: Fact)
    requires ValidSeverity(f.severity) && i in db.incidents && db.incidents[i].propagation == Open
    requires p in db.impacts && db.impacts[p].incident == i && db.impacts[p].target == f.target
    ensures Rejoin(db, i, p, f).incident == i && JoinedBy(db, Rejoin(db, i, p, f), f)
  {
    hide EvidenceWindow;
  }

  lemma SpreadingFact(db: Db, i: Id, f: Fact)
    requires ValidSeverity(f.severity) && i in db.incidents && db.incidents[i].propagation == Open
    ensures Spread(db, i, f).incident == i && JoinedBy(db, Spread(db, i, f), f)
  {
    hide EvidenceWindow;
  }

  lemma DormantMeans(db: Db, f: Fact, now: Time)
    ensures forall p :: Dormant(db, f, p, now) <==> Resumable(db, p, f, now)
    ensures (forall p :: !Dormant(db, f, p, now)) <==> ResumableImpact(db, f, now).None?
  {
    hide ResumableImpact;
    assert forall q :: Related(db, f, q) <==> Bears(db, q, f.target, f.nature.key);
    forall p
      ensures Dormant(db, f, p, now) <==> Resumable(db, p, f, now)
    {
    }
  }

  /** Without one of those either, the dormant impact whose incident resolved last is taken up again. */
  lemma DormantTakesFact(db: Db, f: Fact, now: Time, p: Id)
    requires Linked(db) && ValidSeverity(f.severity) && NoHost(db, f) && NoSpread(db, f) && Dormant(db, f, p, now)
    ensures var o := OpenImpact(db, f, now);
      && Dormant(db, f, o.impact, now) && o.incident == db.impacts[o.impact].incident
      && db.incidents[db.impacts[p].incident].resolvedAt.value <= db.incidents[o.incident].resolvedAt.value
      && o.db.impacts == db.impacts[o.impact := db.impacts[o.impact].(status := Active, resolvedAt := None, severity := f.severity)]
      && o.db.incidents == db.incidents[o.incident := db.incidents[o.incident].(
           resumptions := db.incidents[o.incident].resumptions + 1, resumedAt := Some(now))]
  {
    hide ActiveImpact, PropagatingIncident, Dormant, Resumable;
    HostsMean(db, f);
    SpreadsMean(db, f);
    DormantMeans(db, f, now);
    DormantIsChosen(db, f, now, p);
  }

  lemma DormantIsChosen(db: Db, f: Fact, now: Time, p: Id)
    requires Linked(db) && Resumable(db, p, f, now)
    ensures var r := ResumableImpact(db, f, now);
      && r.Some? && Resumable(db, r.value, f, now)
      && db.incidents[db.impacts[p].incident].resolvedAt.value <= db.incidents[db.impacts[r.value].incident].resolvedAt.value
  {
    var rows := map q | q in db.impacts && Resumable(db, q, f, now) :: -db.incidents[db.impacts[q].incident].resolvedAt.value;
    assert p in rows && ResumableImpact(db, f, now) == PickFirst(rows);
  }

  /** Otherwise the fact opens an incident of its own. */
  lemma FactOpensIncident(db: Db, f: Fact, now: Time)
    requires Shape(db) && Linked(db) && ValidSeverity(f.severity) && NoHost(db, f) && NoSpread(db, f)
    requires forall p :: !Dormant(db, f, p, now)
    ensures var o, window := OpenImpact(db, f, now), EvidenceWindow(db, f);
      && o.incident !in db.incidents && o.impact !in db.impacts
      && o.db.impacts == db.impacts[o.impact := Impact(o.incident, f.target, Active, f.severity, f.openedAt, None)]
      && o.db.incidents == db.incidents[o.incident := Incident(
           f.nature, Active, if f.nature.eligible then Open else Closed, f.severity, f.openedAt, f.openedAt, window, f.openedAt + window,
           if f.nature.eligible then None else Some(now), None, None, NotApplicable, 1, 1, 1, false, 0, None, 0)]
  {
    hide ActiveImpact, PropagatingIncident, ResumableImpact, Dormant, EvidenceWindow, ImpactRow, EvidenceRow, IncidentRow;
    HostsMean(db, f);
    SpreadsMean(db, f);
    DormantMeans(db, f, now);
  }

  // ----- Facts applied in steps and runs -----

  /** The identity of the fact may be recorded on its target, and has no active row there. */
  ghost predicate Admitted(db: Db, f: Fact)
    requires Linked(db)
  {
    && Complete(f) && f.target in db.targets && db.targets[f.target] == Live
    && (forall e :: e in db.evidence && db.evidence[e].identity == f.identity && db.evidence[e].invalidatedAt.Some? ==>
          db.evidence[e].rearmedAt.Some?)
    && (forall e :: e in db.evidence && db.evidence[e].identity == f.identity && db.evidence[e].active ==>
          !(db.evidence[e].target == f.target && db.incidents[db.evidence[e].incident].nature.key == f.nature.key))
  }

  lemma AdmittedOpens(db: Db, f: Fact, now: Time)
    requires Shape(db) && Linked(db) && Admitted(db, f)
    ensures Linked(Deciding(db, f, now)) && Shape(Deciding(db, f, now))
    ensures var at, r := Deciding(db, f, now), ApplyFact(db, f, now);
      && ApplyFact(db, f, now) == OpenFact(at, f, now) && r.Touched?
      && r.incident == OpenImpact(at, f, now).incident && r.impact == OpenImpact(at, f, now).impact
  {
    hide Retire, OpenImpact, AddEvidence, Shape;
    match ActiveRow(db.evidence, f.identity)
    case None => AdmittedNow(db, f);
    case Some(e) =>
      ShapeRows(db, e);
      RetireShape(db, e, now);
      RetireKeeps(db, e, now);
      SuppressedAfterRetire(db, e, f.identity, now);
      AdmittedNow(db, f);
  }

  lemma ShapeRows(db: Db, e: Id)
    requires Shape(db) && e in db.evidence
    ensures EvidenceRow(db.evidence[e])
  {
  }

  lemma AdmittedNow(db: Db, f: Fact)
    requires Linked(db) && Admitted(db, f)
    ensures !Suppressed(db.evidence, f.identity) && ValidSeverity(f.severity)
  {
  }

  lemma RetireKeeps(db: Db, e: Id, now: Time)
    requires e in db.evidence
    ensures var at := Retire(db, e, now); at.targets == db.targets && at.evidence == ResolveRows(db, {e}, now).evidence
  {
  }

  /** A new active row carries the fact on the incident and the impact. */
  ghost predicate RecordedAnew(db: Db, db2: Db, f: Fact, i: Id, p: Id)
  {
    exists e :: e in db2.evidence && e !in db.evidence && CarriesOn(db2.evidence[e], f, i, p)
  }

  predicate CarriesOn(row: Evidence, f: Fact, i: Id, p: Id)
  {
    row.active && row.identity == f.identity && row.incident == i && row.impact == p
  }

  /**
   * A fact whose nature is spreading when it opens is grouped: it is recorded on the incident still spreading that
   * opened first, unless an active incident of its nature already has its target.
   */
  lemma SpreadingFactIsGrouped(db: Db, f: Fact, now: Time, i: Id)
    requires Shape(db) && Linked(db) && Admitted(db, f)
    requires NoHost(Deciding(db, f, now), f) && Spreading(Deciding(db, f, now), f, i)
    ensures var at, r := Deciding(db, f, now), ApplyFact(db, f, now);
      && r.Touched? && Spreading(at, f, r.incident) && at.incidents[r.incident].openedAt <= at.incidents[i].openedAt
      && r.impact in r.db.impacts && r.db.impacts[r.impact].incident == r.incident && r.db.impacts[r.impact].target == f.target
      && r.db.impacts[r.impact].status == Active
      && RecordedAnew(db, r.db, f, r.incident, r.impact)
  {
    hide OpenImpact, Shape, Admitted, Deciding, NoHost, Spreading;
    var at := Deciding(db, f, now);
    AdmittedOpens(db, f, now);
    AdmittedNow(db, f);
    SpreadTakesFact(at, f, now, i);
    RecordedOn(db, at, f, now);
  }

  /** The evidence and the impact a fact is recorded on. */
  lemma RecordedOn(db: Db, at: Db, f: Fact, now: Time)
    requires Shape(at) && Linked(at) && ValidSeverity(f.severity) && at == Deciding(db, f, now) && OpenFact(at, f, now).Touched?
    requires OpenImpact(at, f, now).impact in OpenImpact(at, f, now).db.impacts
    requires OpenImpact(at, f, now).db.impacts[OpenImpact(at, f, now).impact].status == Active
    ensures var r := OpenFact(at, f, now);
      && r.impact in r.db.impacts && r.db.impacts[r.impact].incident == r.incident && r.db.impacts[r.impact].target == f.target
      && r.db.impacts[r.impact].status == Active
      && RecordedAnew(db, r.db, f, r.incident, r.impact)
  {
    hide OpenImpact, Shape, AckFromEvidence;
    var o := OpenImpact(at, f, now);
    OpenImpactShape(at, f, now);
    NewRow(o.db, f, o.incident, o.impact, now);
    assert at.evidence.Keys == db.evidence.Keys by { DecidingKeys(db, f, now); }
    assert o.db.next in OpenFact(at, f, now).db.evidence;
  }

  lemma DecidingKeys(db: Db, f: Fact, now: Time)
    ensures Deciding(db, f, now).evidence.Keys == db.evidence.Keys
  {
  }

  lemma NewRow(db: Db, f: Fact, i: Id, p: Id, now: Time)
    requires Shape(db) && Linked(db) && ValidSeverity(f.severity) && i in db.incidents
    ensures var db2 := AddEvidence(db, f, i, p, now);
      && db2.impacts == db.impacts && db.next !in db.evidence && db.next in db2.evidence
      && CarriesOn(db2.evidence[db.next], f, i, p)
  {
    hide AckFromEvidence;
    var added := InsertEvidence(db, f, i, p);
    if f.upstream {
      AckFromEvidenceOnly(added, i, now);
      assert SameButSync(added.evidence[db.next], AckFromEvidence(added, i, now).evidence[db.next]);
    }
  }

  /** In every step of every run, wherever in the step the fact comes. */
  lemma RunGroupsSpreadingFacts(db: Db, steps: seq<Step>, db2: Db, step: Step, f: Fact, now: Time, mid: Db, i: Id)
    requires Inv(db) && Reaches(db, steps, db2) && Linked(db2) && StepApplies(db2, step, f, now, mid)
    requires Linked(mid) && Admitted(mid, f) && NoHost(Deciding(mid, f, now), f) && Spreading(Deciding(mid, f, now), f, i)
    ensures var at, r := Deciding(mid, f, now), ApplyFact(mid, f, now);
      && r.Touched? && Spreading(at, f, r.incident) && at.incidents[r.incident].openedAt <= at.incidents[i].openedAt
      && r.impact in r.db.impacts && r.db.impacts[r.impact].incident == r.incident && r.db.impacts[r.impact].target == f.target
      && r.db.impacts[r.impact].status == Active
  {
    hide Inv, Shape, StepApplies, Deciding, Admitted, NoHost, Spreading, ApplyFact;
    RunInv(db, steps, db2);
    AppliedInShape(db2, step, f, now, mid);
    SpreadingFactIsGrouped(mid, f, now, i);
  }
}
