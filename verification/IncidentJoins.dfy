/** Joining facts, in every step of every run: when the incident they join opened, and how long after its last impact. */
module IncidentJoins {
  import opened Common
  import opened Trigger
  import opened IncidentModel
  import opened IncidentCycle
  import opened IncidentSnapshot
  import opened IncidentInvariants
  import opened IncidentAggregates
  import opened IncidentIdentities
  import opened IncidentTransactions
  import opened IncidentRuns

  /** The tables in which a fact looks for its incident: a row that moves is closed first. */
  ghost function Deciding(db: Db, f: Fact, now: Time): Db
  {
    match ActiveRow(db.evidence, f.identity)
    case None => db
    case Some(e) => Retire(db, e, now)
  }

  /** Row `e` is where the fact says. */
  predicate Agrees(db: Db, e: Id, f: Fact)
    requires Linked(db) && e in db.evidence
  {
    db.evidence[e].target == f.target && db.incidents[db.evidence[e].incident].nature.key == f.nature.key
  }

  /** The fact, applied to these tables, looks for an incident: it has no active row yet, or one that it moves. */
  ghost predicate Seeks(db: Db, f: Fact, now: Time)
    requires Linked(db)
  {
    && Complete(f)
    && (match ActiveRow(db.evidence, f.identity)
        case None => true
        case Some(e) => db.evidence[e].invalidatedAt.None? && !Agrees(db, e, f))
    && var at := Deciding(db, f, now);
    !Suppressed(at.evidence, f.identity) && IsLive(at.targets, f.target) && ActiveImpact(at, f).None?
  }

  /** The fact, applied to these tables, joins incident `i`. */
  ghost predicate Joins(db: Db, f: Fact, now: Time, i: Id)
    requires Linked(db)
  {
    Seeks(db, f, now) && PropagatingIncident(Deciding(db, f, now), f) == Some(i)
  }

  /** Such a fact is recorded on the incident it joins. */
  lemma JoinedIsTouched(db: Db, f: Fact, now: Time, i: Id)
    requires Shape(db) && Linked(db) && Joins(db, f, now, i)
    ensures var r := ApplyFact(db, f, now); r.Touched? && r.incident == i
  {
    hide Join, AddEvidence, Retire, Shape;
    match ActiveRow(db.evidence, f.identity)
    case None => JoinedImpact(db, f, now, i);
    case Some(e) =>
      RetireShape(db, e, now);
      JoinedImpact(Retire(db, e, now), f, now, i);
  }

  lemma JoinedImpact(db: Db, f: Fact, now: Time, i: Id)
    requires Linked(db) && ValidSeverity(f.severity) && ActiveImpact(db, f).None? && PropagatingIncident(db, f) == Some(i)
    ensures OpenImpact(db, f, now) == Join(db, i, f) && Join(db, i, f).incident == i
  {
  }

  /** Opened at or after the incident, before its window ends, at most five minutes after its last impact. */
  predicate Within(row: Incident, f: Fact)
  {
    && row.openedAt <= f.openedAt <= row.endsAt && row.endsAt == row.lastImpactAt + row.window
    && 60 <= row.window <= 300 && f.openedAt - row.lastImpactAt <= 300
  }

  lemma JoinsWithinWindow(db: Db, f: Fact)
    requires Shape(db) && PropagatingIncident(db, f).Some?
    ensures Within(db.incidents[PropagatingIncident(db, f).value], f)
  {
    assert IncidentRow(db.incidents[PropagatingIncident(db, f).value]);
  }

  lemma FactJoinsWithinWindow(db: Db, f: Fact, now: Time, i: Id)
    requires Shape(db) && Linked(db) && Joins(db, f, now, i)
    ensures i in Deciding(db, f, now).incidents && Within(Deciding(db, f, now).incidents[i], f)
  {
    hide Within, Shape, Retire;
    match ActiveRow(db.evidence, f.identity)
    case None => JoinsWithinWindow(db, f);
    case Some(e) =>
      RetireShape(db, e, now);
      JoinsWithinWindow(Retire(db, e, now), f);
  }

  /** Fact `k` of the snapshot is applied to the tables `mid`. */
  ghost predicate SnapshotApplies(db: Db, s: Snapshot, k: nat, mid: Db)
    requires Linked(db)
  {
    && s.leaseValid && k < |Prepared(s)|
    && var pass := ApplyFacts(Pass(db, {}, {}, {}), Prepared(s)[..k], s.observedAt);
    pass.Ok? && mid == pass.value.db && Prepared(s)[k].identity !in pass.value.seen
  }

  /** Fact `f` of the step is applied to the tables `mid`. */
  ghost predicate StepApplies(db: Db, step: Step, f: Fact, now: Time, mid: Db)
    requires Linked(db)
  {
    match step
    case Observe(s) => now == s.observedAt && exists k: nat :: SnapshotApplies(db, s, k, mid) && Prepared(s)[k] == f
    case ObserveNative(o) =>
      && now == o.observedAt && o.source in db.sources
      && var source := db.sources[o.source];
      && var decision := Evaluate(source.policy, source.streaks, o.outcome);
      decision.triggered && f == NativeFact(o, source.severity) && mid == Counted(db, o.source, decision.streaks)
    case _ => false
  }

  lemma AppliedInShape(db: Db, step: Step, f: Fact, now: Time, mid: Db)
    requires Inv(db) && Linked(db) && StepApplies(db, step, f, now, mid)
    ensures Shape(mid) && Linked(mid)
  {
    hide ApplyFacts, Shape, Clean;
    match step
    case Observe(s) =>
      var k: nat :| SnapshotApplies(db, s, k, mid) && Prepared(s)[k] == f;
      ApplyFactsOk(Pass(db, {}, {}, {}), Prepared(s)[..k], s.observedAt);
      ShapeLinks(mid);
    case ObserveNative(o) =>
      var source := db.sources[o.source];
      OutsideShape(db, Counted(db, o.source, Evaluate(source.policy, source.streaks, o.outcome).streaks));
  }

  /**
   * In every step of every run, each fact that joins an incident is recorded on it, and opened at or after it, before the
   * end of its window and within 300 seconds of its last impact, wherever in the step the fact comes.
   */
  lemma RunJoinsWithinWindow(db: Db, steps: seq<Step>, db2: Db, step: Step, f: Fact, now: Time, mid: Db, i: Id)
    requires Inv(db) && Reaches(db, steps, db2) && Linked(db2) && StepApplies(db2, step, f, now, mid)
    requires Linked(mid) && Joins(mid, f, now, i)
    ensures i in Deciding(mid, f, now).incidents && Within(Deciding(mid, f, now).incidents[i], f)
    ensures var r := ApplyFact(mid, f, now); r.Touched? && r.incident == i
  {
    hide ApplyFact, Inv, Shape, Joins, Within, Deciding, StepApplies;
    RunInv(db, steps, db2);
    AppliedInShape(db2, step, f, now, mid);
    FactJoinsWithinWindow(mid, f, now, i);
    JoinedIsTouched(mid, f, now, i);
  }
}
