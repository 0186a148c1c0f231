/** Whole runs of the incident module: every step, every reachable state. */
module IncidentRuns {
  import opened Common
  import opened Trigger
  import opened IncidentModel
  import opened IncidentCycle
  import opened IncidentSnapshot
  import opened IncidentStructure
  import opened IncidentInvariants
  import opened IncidentAggregates
  import opened IncidentIdentities
  import opened IncidentAcknowledgement
  import opened IncidentPlacement
  import opened IncidentTransactions
  import opened IncidentStructureProofs
  import opened IncidentEvolution

  /** One committed transaction. `order` is the order in which a loop visits the rows it moves. */
  datatype Step =
    | Observe(s: Snapshot)
    | ObserveNative(o: Observation)
    | Report(id: Identity, now: Time)  // a webhook reports the end of a condition
    | Advance(now: Time)
    | RuleOut(incident: Id, evidence: Id, now: Time)
    | Acknowledge(incident: Id, now: Time)
    | Answer(incident: Id, results: seq<AckResult>)
    | ArchiveTarget(target: string, now: Time)
    | RestoreTarget(target: string)
    | Remove(owner: Owner, now: Time)
    | Merge(primary: string, secondary: string, order: seq<Id>, now: Time)
    | Reassign(target: string, source: string, binding: string, order: seq<Id>, now: Time)
    | AddTarget(target: string)
    | SetConnector(connector: string, interval: int)
    | SetSource(source: string, row: Source)

  /** What the callers of a transaction guarantee. Answers follow an acknowledgement plan, which acknowledges first. */
  ghost predicate Enabled(db: Db, step: Step)
  {
    match step
    case Answer(i, _) => Acknowledged(db, i)
    case Merge(_, secondary, order, _) => Lists(order, ImpactsOn(db.impacts, secondary))
    case Reassign(_, source, binding, order, _) => Lists(order, ImpactsFrom(db.evidence, source, binding))
    case AddTarget(target) => target !in db.targets
    case _ => true
  }

  /** The outcome of a transaction: a failed one is rolled back. */
  ghost function Attempt(db: Db, step: Step): Result<Db, Error>
    requires Linked(db) && Enabled(db, step)
  {
    match step
    case Observe(s) => ApplySnapshot(db, s)
    case ObserveNative(o) => ApplyNative(db, o)
    case Report(id, now) => Ok(ResolveEvidence(db, id, now))
    case Advance(now) => Ok(AdvanceDue(db, now))
    case RuleOut(i, e, now) => Invalidate(db, i, e, now)
    case Acknowledge(i, now) => AckLocal(db, i, now)
    case Answer(i, results) => Ok(CompleteAck(db, i, results))
    case ArchiveTarget(t, now) => Archive(db, t, now)
    case RestoreTarget(t) => Restore(db, t)
    case Remove(owner, now) => Ok(RemoveOwner(db, owner, now))
    case Merge(primary, secondary, order, now) => MergeTargets(db, primary, secondary, order, now)
    case Reassign(t, source, binding, order, now) => ReassignSource(db, t, source, binding, order, now)
    case AddTarget(t) => Ok(db.(targets := db.targets[t := Live]))
    case SetConnector(c, interval) => Ok(db.(connectors := db.connectors[c := interval]))
    case SetSource(source, row) => Ok(db.(sources := db.sources[source := row]))
  }

  ghost function Next(db: Db, step: Step): Db
    requires Linked(db) && Enabled(db, step)
  {
    match Attempt(db, step)
    case Ok(db2) => db2
    case Err(_) => db
  }

  /** `steps` leads from `db` to `db2`. */
  ghost predicate Reaches(db: Db, steps: seq<Step>, db2: Db)
    decreases |steps|
  {
    if steps == [] then db == db2
    else Linked(db) && Enabled(db, steps[0]) && Reaches(Next(db, steps[0]), steps[1..], db2)
  }

  /** No incident has been opened yet. */
  predicate Fresh(db: Db)
  {
    db.incidents == map[] && db.impacts == map[] && db.evidence == map[]
  }

  function Empty(): Db { Db(map[], map[], map[], map[], map[], map[], 0) }

  lemma FreshInv(db: Db)
    requires Fresh(db)
    ensures Inv(db)
  {
  }

  // ----- The invariant -----

  lemma StructureInv(db: Db, step: Step)
    requires Inv(db) && Linked(db) && Enabled(db, step) && (step.Merge? || step.Reassign?)
    ensures Inv(Next(db, step))
  {
    match step
    case Merge(primary, secondary, order, now) => MergeTargetsInv(db, primary, secondary, order, now);
    case Reassign(t, source, binding, order, now) =>
      if Attempt(db, step).Ok? {
        ReassignSourceMeaning(db, t, source, binding, order, now);
      }
  }

  lemma SettingInv(db: Db, step: Step)
    requires Inv(db) && Linked(db) && Enabled(db, step) && (step.AddTarget? || step.SetConnector? || step.SetSource?)
    ensures Inv(Next(db, step))
  {
    OutsidePartial(db, Next(db, step), {}, {});
  }

  /** Every transaction keeps the invariant. */
  lemma StepInv(db: Db, step: Step)
    requires Inv(db) && Linked(db) && Enabled(db, step)
    ensures Inv(Next(db, step))
  {
    match step
    case Observe(s) => SnapshotInv(db, s);
    case ObserveNative(o) => NativeInv(db, o);
    case Report(id, now) => ResolveEvidenceInv(db, id, now);
    case Advance(now) => AdvanceDueInv(db, now);
    case RuleOut(i, e, now) => InvalidateInv(db, i, e, now);
    case Acknowledge(i, now) => AckLocalInv(db, i, now);
    case Answer(i, results) => CompleteAckInv(db, i, results);
    case ArchiveTarget(t, now) => ArchiveInv(db, t, now);
    case RestoreTarget(t) => RestoreInv(db, t);
    case Remove(owner, now) => RemoveOwnerInv(db, owner, now);
    case _ =>
      if step.Merge? || step.Reassign? {
        StructureInv(db, step);
      } else {
        SettingInv(db, step);
      }
  }

  /** Live evidence of the impact. */
  predicate KeepsAlive(row: Evidence, p: Id)
  {
    row.impact == p && row.active && row.invalidatedAt.None?
  }

  /** An impact is active exactly while live evidence keeps it so, and as grave as the gravest. */
  ghost predicate ImpactIsRight(evidence: map<Id, Evidence>, p: Id, row: Impact)
  {
    && (row.status == Active <==> exists e :: e in evidence && KeepsAlive(evidence[e], p))
    && (row.status == Active ==>
          && (exists e :: e in evidence && KeepsAlive(evidence[e], p) && evidence[e].severity == row.severity)
          && (forall e :: e in evidence && KeepsAlive(evidence[e], p) ==> evidence[e].severity <= row.severity))
  }

  /** An incident has the counts and the severity of its impacts, and is resolved exactly if closed with none active. */
  ghost predicate IncidentIsRight(impacts: map<Id, Impact>, i: Id, row: Incident)
  {
    var active := set p | p in impacts && impacts[p].incident == i && impacts[p].status == Active;
    && row.activeCount == |active| && row.impactCount == |set p | p in impacts && impacts[p].incident == i|
    && (row.status == Resolved <==> row.propagation == Closed && active == {})
    && (forall p :: p in active ==> impacts[p].severity <= row.severity)
    && (active != {} ==> exists p :: p in active && impacts[p].severity == row.severity)
  }

  /** From tables without incidents, every run leads to stored aggregates that equal the derived ones. */
  lemma ReachableAgrees(db: Db, steps: seq<Step>, db2: Db)
    requires Fresh(db) && Reaches(db, steps, db2)
    ensures forall p :: p in db2.impacts ==> ImpactIsRight(db2.evidence, p, db2.impacts[p])
    ensures forall i :: i in db2.incidents ==> IncidentIsRight(db2.impacts, i, db2.incidents[i])
    ensures UniqueIdentity(db2.evidence) && Silenced(db2.evidence) && UniqueImpact(db2.impacts)
  {
    hide Inv, ImpactAgrees, IncidentAgrees, ImpactIsRight, IncidentIsRight;
    FreshInv(db);
    RunInv(db, steps, db2);
    PartsAgree(db2);
    forall p | p in db2.impacts
      ensures ImpactIsRight(db2.evidence, p, db2.impacts[p])
    {
      AgreeingImpactIsRight(db2.evidence, p, db2.impacts[p]);
    }
    forall i | i in db2.incidents
      ensures IncidentIsRight(db2.impacts, i, db2.incidents[i])
    {
      AgreeingIncidentIsRight(db2.impacts, i, db2.incidents[i]);
    }
  }

  lemma PartsAgree(db: Db)
    requires Inv(db)
    ensures forall p :: p in db.impacts ==> ImpactAgrees(db.evidence, p, db.impacts[p])
    ensures forall i :: i in db.incidents ==> IncidentAgrees(db.impacts, i, db.incidents[i])
    ensures UniqueIdentity(db.evidence) && Silenced(db.evidence) && UniqueImpact(db.impacts)
  {
  }

  lemma AgreeingImpactIsRight(evidence: map<Id, Evidence>, p: Id, row: Impact)
    requires ImpactAgrees(evidence, p, row)
    ensures ImpactIsRight(evidence, p, row)
  {
    assert forall e :: e in evidence ==> (KeepsAlive(evidence[e], p) <==> Sustains(evidence[e], p));
  }

  lemma AgreeingIncidentIsRight(impacts: map<Id, Impact>, i: Id, row: Incident)
    requires IncidentAgrees(impacts, i, row)
    ensures IncidentIsRight(impacts, i, row)
  {
    var active := set p | p in impacts && impacts[p].incident == i && impacts[p].status == Active;
    assert active == ActiveOf(impacts, i);
    assert (set p | p in impacts && impacts[p].incident == i) == ImpactsOf(impacts, i);
    forall p | p in active
      ensures impacts[p].severity in ActiveSeverities(impacts, i)
    {
    }
    ActiveSeveritiesEmpty(impacts, i);
  }

  /** After any run, stored aggregates, identities, acknowledgements and placements are all as derived. */
  lemma {:induction false} RunInv(db: Db, steps: seq<Step>, db2: Db)
    requires Inv(db) && Reaches(db, steps, db2)
    ensures Inv(db2)
    decreases |steps|
  {
    if steps != [] {
      StepInv(db, steps[0]);
      RunInv(Next(db, steps[0]), steps[1..], db2);
    }
  }
}
