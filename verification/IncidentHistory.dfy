/** Histories: what a run never undoes, when windows close, and how long an invalidation silences its identity. */
module IncidentHistory {
  import opened Common
  import opened Trigger
  import opened IncidentModel
  import opened IncidentCycle
  import opened IncidentSnapshot
  import opened IncidentStructure
  import opened IncidentInvariants
  import opened IncidentAggregates
  import opened IncidentIdentities
  import opened IncidentAcknowledgement
  import opened IncidentTransactions
  import opened IncidentStructureProofs
  import opened IncidentEvolution
  import opened IncidentReports
  import opened IncidentStoreSteps
  import opened IncidentRuns

  // ----- Every step only moves rows forward -----

  lemma RelabelledEvolves(db: Db, db2: Db, now: Time)
    requires Relabelled(db, db2) && forall e :: e in db.evidence ==> db2.evidence[e].openedAt == db.evidence[e].openedAt
    ensures Evolves(db, db2, now)
  {
    forall e | e in db.evidence
      ensures EvidenceEvolves(db.evidence[e], db2.evidence[e])
    {
      assert RelabelledRow(db.evidence[e], db2.evidence[e]);
    }
  }

  lemma {:induction false} ApplyFactsEvolves(pass: Pass, facts: seq<Fact>, now: Time)
    requires PassOk(pass) && Linked(pass.db) && ApplyFacts(pass, facts, now).Ok?
    ensures Evolves(pass.db, ApplyFacts(pass, facts, now).value.db, now)
    decreases |facts|
  {
    EvolvesRefl(pass.db, now);
    if facts != [] {
      var mid := ApplyOne(pass, facts[0], now).value;
      ApplyOneOk(pass, facts[0], now);
      ApplyOneEvolves(pass, facts[0], now);
      ApplyFactsEvolves(mid, facts[1..], now);
      EvolvesTrans(pass.db, mid.db, ApplyFacts(mid, facts[1..], now).value.db, now);
    }
  }

  lemma ApplyOneEvolves(pass: Pass, f: Fact, now: Time)
    requires Shape(pass.db) && Linked(pass.db) && ApplyOne(pass, f, now).Ok?
    ensures Evolves(pass.db, ApplyOne(pass, f, now).value.db, now)
  {
    EvolvesRefl(pass.db, now);
    ApplyFactEvolves(pass.db, f, now);
  }

  lemma FinishEvolves(pass: Pass, s: Snapshot)
    ensures Evolves(pass.db, Finish(pass, s), s.observedAt)
  {
    var now := s.observedAt;
    var gone := Gone(pass.db, s, pass.seen);
    var ps, ns := pass.impacts + ImpactsTouching(pass.db, gone), pass.incidents + IncidentsTouching(pass.db, gone);
    var closed := ResolveRows(pass.db, gone, now);
    var rearmed := Rearm(closed, s, pass.seen, now);
    var settled := Settle(rearmed, ps, ns, now);
    ResolveRowsEvolves(pass.db, gone, now);
    RearmRelabels(closed, s, pass.seen, now);
    RelabelledEvolves(closed, rearmed, now);
    SettleEvolves(rearmed, ps, ns, now);
    RecomputeIncidentsEvolves(settled, Due(settled, now), now);
    EvolvesTrans(pass.db, closed, rearmed, now);
    EvolvesTrans(pass.db, rearmed, settled, now);
    EvolvesTrans(pass.db, settled, Finish(pass, s), now);
  }

  lemma SnapshotEvolves(db: Db, s: Snapshot)
    requires Inv(db) && Linked(db) && ApplySnapshot(db, s).Ok?
    ensures Evolves(db, ApplySnapshot(db, s).value, s.observedAt)
  {
    var pass := Pass(db, {}, {}, {});
    var out := ApplyFacts(pass, Prepared(s), s.observedAt).value;
    ApplyFactsEvolves(pass, Prepared(s), s.observedAt);
    FinishEvolves(out, s);
    EvolvesTrans(db, out.db, Finish(out, s), s.observedAt);
  }

  lemma AdvanceEvolves(db: Db, now: Time)
    ensures Evolves(db, AdvanceDue(db, now), now)
  {
    RecomputeIncidentsEvolves(db, Due(db, now), now);
  }

  lemma RecoverEvolves(db: Db, source: string, now: Time)
    ensures Evolves(db, RecoverNative(db, source, now), now)
  {
    match ActiveRow(db.evidence, NativeIdentity(source))
    case Some(e) => CloseEvolves(db, {e}, now);
    case None =>
      var db1 := RearmIdentity(db, NativeIdentity(source), now);
      RearmIdentityRelabels(db, NativeIdentity(source), now);
      RelabelledEvolves(db, db1, now);
      AdvanceEvolves(db1, now);
      EvolvesTrans(db, db1, AdvanceDue(db1, now), now);
  }

  lemma NativeEffectEvolves(db: Db, o: Observation, severity: Severity, decision: Decision)
    requires Shape(db) && Linked(db) && NativeEffect(db, o, severity, decision).Ok?
    ensures Evolves(db, NativeEffect(db, o, severity, decision).value, o.observedAt)
  {
    if decision.triggered {
      TriggeredEvolves(db, NativeFact(o, severity), o.observedAt);
    } else if decision.recovered {
      RecoverEvolves(db, o.source, o.observedAt);
    } else {
      AdvanceEvolves(db, o.observedAt);
    }
  }

  lemma NativeEvolves(db: Db, o: Observation)
    requires Inv(db) && Linked(db) && ApplyNative(db, o).Ok?
    ensures Evolves(db, ApplyNative(db, o).value, o.observedAt)
  {
    var source := db.sources[o.source];
    var decision := Evaluate(source.policy, source.streaks, o.outcome);
    var counted := Counted(db, o.source, decision.streaks);
    OutsideShape(db, counted);
    EvolvesRefl(db, o.observedAt);
    NativeEffectEvolves(counted, o, source.severity, decision);
    EvolvesTrans(db, counted, ApplyNative(db, o).value, o.observedAt);
  }

  lemma TriggeredEvolves(db: Db, f: Fact, now: Time)
    requires Shape(db) && Linked(db)
    ensures match ApplyFact(db, f, now)
      case Touched(next, i, p) => Evolves(db, Settle(next, {p}, {i}, now), now)
      case Ignored(next) => Evolves(db, next, now)
      case _ => true
  {
    ApplyFactEvolves(db, f, now);
    match ApplyFact(db, f, now)
    case Touched(next, i, p) =>
      SettleEvolves(next, {p}, {i}, now);
      EvolvesTrans(db, next, Settle(next, {p}, {i}, now), now);
    case _ =>
  }

  lemma InvalidateEvolves(db: Db, i: Id, e: Id, now: Time)
    requires Shape(db) && Invalidate(db, i, e, now).Ok?
    ensures Evolves(db, Invalidate(db, i, e, now).value, now)
  {
    hide Settle, IncidentRow, ImpactRow;
    var row := db.evidence[e].(active := false, resolvedAt := Some(now), invalidatedAt := Some(now));
    var db1 := db.(evidence := db.evidence[e := row]);
    assert Evolves(db, db1, now);
    SettleEvolves(db1, {row.impact}, {i}, now);
    EvolvesTrans(db, db1, Invalidate(db, i, e, now).value, now);
  }

  lemma AckLocalEvolves(db: Db, i: Id, now: Time)
    requires AckLocal(db, i, now).Ok?
    ensures Evolves(db, AckLocal(db, i, now).value, now)
  {
    EvolvesRefl(db, now);
    if !Acknowledged(db, i) {
      var external := exists e :: e in db.evidence && Remote(db.evidence[e], i);
      MarkEvolves(db, i, db.incidents[i].(acknowledgedAt := Some(now), ackSync := if external then Pending else NotApplicable), now);
    }
  }

  lemma CompleteAckEvolves(db: Db, i: Id, results: seq<AckResult>, now: Time)
    requires i in db.incidents
    ensures Evolves(db, CompleteAck(db, i, results), now)
  {
    var db1 := RecordResults(db, i, results);
    RecordResultsAnswered(db, i, results);
    forall e | e in db.evidence
      ensures EvidenceEvolves(db.evidence[e], db1.evidence[e])
    {
      assert AnsweredRow(db.evidence[e], db1.evidence[e], i);
    }
  }

  lemma ArchiveEvolves(db: Db, t: string, now: Time)
    requires Archive(db, t, now).Ok?
    ensures Evolves(db, Archive(db, t, now).value, now)
  {
    var db1 := db.(targets := db.targets[t := Archived]);
    assert Evolves(db, db1, now);
    CloseEvolves(db1, ActiveOn(db.evidence, t), now);
    EvolvesTrans(db, db1, Archive(db, t, now).value, now);
  }

  lemma RemoveEvolves(db: Db, owner: Owner, now: Time)
    ensures Evolves(db, RemoveOwner(db, owner, now), now)
  {
    var db1 := Close(db, ActiveOwned(db.evidence, owner), now);
    CloseEvolves(db, ActiveOwned(db.evidence, owner), now);
    DisownRelabels(db1, owner);
    RelabelledEvolves(db1, Disown(db1, owner), now);
    EvolvesTrans(db, db1, Disown(db1, owner), now);
  }

  lemma ConservedEvolves(db: Db, db2: Db, now: Time)
    requires db2.incidents == db.incidents && Conserved(db.evidence, db2.evidence)
    ensures Evolves(db, db2, now)
  {
    forall e | e in db.evidence
      ensures EvidenceEvolves(db.evidence[e], db2.evidence[e])
    {
      assert db2.evidence[e] == db.evidence[e].(impact := db2.evidence[e].impact, target := db2.evidence[e].target);
    }
  }

  lemma MergeEvolves(db: Db, primary: string, secondary: string, order: seq<Id>, now: Time)
    requires Inv(db) && Lists(order, ImpactsOn(db.impacts, secondary))
    requires MergeTargets(db, primary, secondary, order, now).Ok?
    ensures Evolves(db, MergeTargets(db, primary, secondary, order, now).value, now)
  {
    var ns := IncidentsOn(db.impacts, secondary);
    var db1 := MergeAll(db, order, primary, now);
    MergeStart(db, secondary, order, ns);
    MergeAllOk(db, order, primary, secondary, ns, now);
    ConservedEvolves(db, db1, now);
    RecomputeIncidentsEvolves(db1, ns, now);
    EvolvesTrans(db, db1, RecomputeIncidents(db1, ns, now), now);
  }

  lemma ReassignEvolves(db: Db, t: string, source: string, binding: string, order: seq<Id>, now: Time)
    requires Inv(db) && Lists(order, ImpactsFrom(db.evidence, source, binding))
    requires ReassignSource(db, t, source, binding, order, now).Ok?
    ensures Evolves(db, ReassignSource(db, t, source, binding, order, now).value, now)
  {
    var ns := IncidentsFrom(db.evidence, source, binding);
    var db1 := ReassignAll(db, order, t, source, binding, now);
    ReassignStart(db, t, source, binding, order);
    PartialWider(db, ns);
    ReassignAllOk(db, order, t, source, binding, ns, now);
    ConservedEvolves(db, db1, now);
    RecomputeIncidentsEvolves(db1, ns, now);
    EvolvesTrans(db, db1, RecomputeIncidents(db1, ns, now), now);
  }

  /** The instant a step is observed at; steps without one move no window and close nothing. */
  function At(step: Step, clock: Time): Time
  {
    match step
    case Observe(s) => s.observedAt
    case ObserveNative(o) => o.observedAt
    case Report(_, now) => now
    case Advance(now) => now
    case RuleOut(_, _, now) => now
    case Acknowledge(_, now) => now
    case ArchiveTarget(_, now) => now
    case Remove(_, now) => now
    case Merge(_, _, _, now) => now
    case Reassign(_, _, _, _, now) => now
    case _ => clock
  }

  /** No step un-acknowledges, moves a closed window, reopens evidence, forgets a row or a resumption. */
  lemma StepEvolves(db: Db, step: Step, clock: Time)
    requires Inv(db) && Linked(db) && Enabled(db, step)
    ensures Evolves(db, Next(db, step), At(step, clock))
  {
    hide Evolves, Shape, Clean, AckOk, Identities, ApplySnapshot, ApplyNative;
    EvolvesRefl(db, At(step, clock));
    if Attempt(db, step).Ok? {
      match step
      case Observe(s) => SnapshotEvolves(db, s);
      case ObserveNative(o) => NativeEvolves(db, o);
      case Report(id, now) =>
        match ActiveRow(db.evidence, id) {
          case None =>
          case Some(e) => CloseEvolves(db, {e}, now);
        }
      case Advance(now) => AdvanceEvolves(db, now);
      case RuleOut(i, e, now) => InvalidateEvolves(db, i, e, now);
      case Acknowledge(i, now) => AckLocalEvolves(db, i, now);
      case Answer(i, results) => CompleteAckEvolves(db, i, results, clock);
      case ArchiveTarget(t, now) => ArchiveEvolves(db, t, now);
      case Remove(owner, now) => RemoveEvolves(db, owner, now);
      case Merge(primary, secondary, order, now) => MergeEvolves(db, primary, secondary, order, now);
      case Reassign(t, source, binding, order, now) => ReassignEvolves(db, t, source, binding, order, now);
      case _ => ElsewhereEvolves(db, Next(db, step), At(step, clock));
    }
  }

  lemma ElsewhereEvolves(db: Db, db2: Db, now: Time)
    requires db2.incidents == db.incidents && db2.evidence == db.evidence
    ensures Evolves(db, db2, now)
  {
  }

  // ----- When a window closes -----

  /** An eligible incident is resolved only once its window has run out and been closed. */
  ghost predicate Timely(db: Db, clock: Time)
  {
    forall i :: i in db.incidents ==> TimelyRow(db.incidents[i], clock)
  }

  predicate TimelyRow(row: Incident, clock: Time)
  {
    && (row.closedAt.Some? ==> row.closedAt.value <= clock && (row.nature.eligible ==> row.endsAt <= row.closedAt.value))
    && (row.status == Resolved ==> row.closedAt.Some? && row.resolvedAt.Some? && row.closedAt.value <= row.resolvedAt.value <= clock)
  }

  lemma EvolvesTimely(db: Db, db2: Db, clock: Time, now: Time)
    requires Evolves(db, db2, now) && Timely(db, clock) && clock <= now
    requires Shape(db) && Shape(db2)
    ensures Timely(db2, now)
  {
    forall i | i in db2.incidents
      ensures TimelyRow(db2.incidents[i], now)
    {
      assert IncidentRow(db2.incidents[i]);
      if i in db.incidents {
        assert IncidentRow(db.incidents[i]) && TimelyRow(db.incidents[i], clock);
        assert IncidentEvolves(db.incidents[i], db2.incidents[i], now);
      } else {
        assert IncidentAppears(db2.incidents[i], now);
      }
    }
  }

  /** The clock of a run never goes back. */
  predicate Clocked(steps: seq<Step>, clock: Time)
    decreases |steps|
  {
    steps == [] || (clock <= At(steps[0], clock) && Clocked(steps[1..], At(steps[0], clock)))
  }

  function Clock(steps: seq<Step>, clock: Time): Time
    decreases |steps|
  {
    if steps == [] then clock else Clock(steps[1..], At(steps[0], clock))
  }

  /** In every run on a clock that does not go back, no eligible incident is resolved before the end of its window. */
  lemma {:induction false} RunTimely(db: Db, steps: seq<Step>, db2: Db, clock: Time)
    requires Inv(db) && Reaches(db, steps, db2) && Timely(db, clock) && Clocked(steps, clock)
    ensures Timely(db2, Clock(steps, clock))
    decreases |steps|
  {
    if steps != [] {
      var db1, now := Next(db, steps[0]), At(steps[0], clock);
      StepEvolves(db, steps[0], clock);
      StepInv(db, steps[0]);
      EvolvesTimely(db, db1, clock, now);
      RunTimely(db1, steps[1..], db2, now);
    }
  }

  /** The least window from one to five minutes that leaves room for two observations and one evaluation, if five minutes do. */
  lemma WindowLeavesRoom(db: Db, f: Fact, w: int)
    ensures 60 <= EvidenceWindow(db, f) <= 300
    // observations come at the cadence of the check, or else of the connector, or else every thirty seconds
    ensures var cadence :=
        if f.source != "" && f.source in db.sources then db.sources[f.source].interval
        else if f.source == "" && f.connector != "" && f.connector in db.connectors then db.connectors[f.connector]
        else 30;
      EvidenceWindow(db, f) <= w <==> w >= 300 || (60 <= w && 2 * cadence <= w && f.evaluationWindow <= w)
  {
  }

  // ----- How long an invalidation lasts -----

  /** The step re-arms the invalidated row: its condition was observed gone, or its check recovered. */
  ghost predicate Rearms(db: Db, step: Step, row: Evidence)
    requires Linked(db)
  {
    match step
    case Observe(s) => ApplySnapshot(db, s).Ok? && Observes(s, row) && row.identity !in ReportedIds(s)
    case ObserveNative(o) =>
      && o.source in db.sources && row.identity == NativeIdentity(o.source)
      && Evaluate(db.sources[o.source].policy, db.sources[o.source].streaks, o.outcome).recovered
    case _ => false
  }

  /** No re-arming happens between the two states. */
  ghost predicate SameArming(evidence: map<Id, Evidence>, evidence2: map<Id, Evidence>)
  {
    forall e :: e in evidence && Unarmed(evidence[e]) ==> e in evidence2 && Unarmed(evidence2[e])
  }

  lemma RecoverArming(db: Db, source: string, now: Time, e: Id)
    requires Identities(db) && e in db.evidence && Unarmed(db.evidence[e])
    ensures var db2 := RecoverNative(db, source, now);
      e in db2.evidence && (Unarmed(db2.evidence[e]) <==> db.evidence[e].identity != NativeIdentity(source))
  {
  }

  lemma TriggeredArming(db: Db, f: Fact, now: Time)
    requires Shape(db) && Linked(db) && Identities(db)
    ensures match ApplyFact(db, f, now)
      case Touched(next, i, p) => SameArming(db.evidence, Settle(next, {p}, {i}, now).evidence)
      case Ignored(next) => SameArming(db.evidence, next.evidence)
      case _ => true
  {
    ApplyFactOutcome(db, f, now);
  }

  lemma NativeArming(db: Db, o: Observation, e: Id)
    requires Inv(db) && Linked(db) && e in db.evidence && Unarmed(db.evidence[e]) && ApplyNative(db, o).Ok?
    ensures var db2 := ApplyNative(db, o).value;
      e in db2.evidence && (Unarmed(db2.evidence[e]) <==> !Rearms(db, ObserveNative(o), db.evidence[e]))
  {
    hide ApplyFact, RecoverNative, Settle, Shape, Clean, AckOk;
    var source := db.sources[o.source];
    var decision := Evaluate(source.policy, source.streaks, o.outcome);
    var counted := Counted(db, o.source, decision.streaks);
    OutsidePartial(db, counted, {}, {});
    if decision.triggered {
      TriggeredArming(counted, NativeFact(o, source.severity), o.observedAt);
    } else if decision.recovered {
      RecoverArming(counted, o.source, o.observedAt, e);
    }
  }

  lemma StructureArming(db: Db, step: Step)
    requires Inv(db) && Linked(db) && Enabled(db, step) && (step.Merge? || step.Reassign?)
    ensures SameArming(db.evidence, Next(db, step).evidence)
  {
    if Attempt(db, step).Ok? {
      match step
      case Merge(primary, secondary, order, now) => MergeTargetsRows(db, primary, secondary, order, now);
      case Reassign(t, source, binding, order, now) => ReassignSourceMeaning(db, t, source, binding, order, now);
    }
  }

  lemma AnswerArming(db: Db, i: Id, results: seq<AckResult>)
    requires i in db.incidents
    ensures SameArming(db.evidence, CompleteAck(db, i, results).evidence)
  {
    RecordResultsAnswered(db, i, results);
    var db1 := RecordResults(db, i, results);
    forall e | e in db.evidence
      ensures e in db1.evidence && (Unarmed(db.evidence[e]) ==> Unarmed(db1.evidence[e]))
    {
      assert AnsweredRow(db.evidence[e], db1.evidence[e], i);
    }
  }

  lemma AckArming(db: Db, i: Id, now: Time)
    requires AckOk(db, {}) && AckLocal(db, i, now).Ok?
    ensures SameArming(db.evidence, AckLocal(db, i, now).value.evidence)
  {
    AckLocalOnly(db, i, now);
    AckOnlyStandings(db, AckLocal(db, i, now).value);
    forall e | e in db.evidence
      ensures SameStanding(db.evidence[e], AckLocal(db, i, now).value.evidence[e])
    {
    }
  }

  lemma CloseArming(db: Db, es: set<Id>, now: Time)
    ensures SameArming(db.evidence, Close(db, es, now).evidence)
  {
  }

  lemma InvalidateArming(db: Db, i: Id, e: Id, now: Time)
    requires Shape(db) && Invalidate(db, i, e, now).Ok?
    ensures SameArming(db.evidence, Invalidate(db, i, e, now).value.evidence)
  {
  }

  lemma ReportArming(db: Db, id: Identity, now: Time)
    ensures SameArming(db.evidence, ResolveEvidence(db, id, now).evidence)
  {
    match ActiveRow(db.evidence, id)
    case None =>
    case Some(e) => CloseArming(db, {e}, now);
  }

  lemma ArchiveArming(db: Db, t: string, now: Time)
    requires Archive(db, t, now).Ok?
    ensures SameArming(db.evidence, Archive(db, t, now).value.evidence)
  {
    CloseArming(db.(targets := db.targets[t := Archived]), ActiveOn(db.evidence, t), now);
  }

  lemma ClosingArming(db: Db, step: Step)
    requires Shape(db) && Linked(db) && Enabled(db, step) && Attempt(db, step).Ok?
    requires step.Report? || step.Advance? || step.RuleOut? || step.ArchiveTarget? || step.RestoreTarget? || step.Remove?
    ensures SameArming(db.evidence, Next(db, step).evidence)
  {
    hide ResolveEvidence, Invalidate, Archive, RemoveOwner, Shape;
    match step
    case Report(id, now) => ReportArming(db, id, now);
    case RuleOut(i, e, now) => InvalidateArming(db, i, e, now);
    case ArchiveTarget(t, now) => ArchiveArming(db, t, now);
    case Remove(owner, now) => RemoveArming(db, owner, now);
    case _ =>
  }

  lemma AcknowledgingArming(db: Db, step: Step)
    requires Inv(db) && Linked(db) && Enabled(db, step) && (step.Acknowledge? || step.Answer?)
    ensures SameArming(db.evidence, Next(db, step).evidence)
  {
    match step
    case Acknowledge(i, now) =>
      if Attempt(db, step).Ok? {
        AckArming(db, i, now);
      }
    case Answer(i, results) => AnswerArming(db, i, results);
  }

  lemma OtherArming(db: Db, step: Step)
    requires Inv(db) && Linked(db) && Enabled(db, step) && !step.Observe? && !step.ObserveNative?
    ensures SameArming(db.evidence, Next(db, step).evidence)
  {
    hide Shape, Clean, AckOk, Identities;
    if step.Merge? || step.Reassign? {
      StructureArming(db, step);
    } else if step.Acknowledge? || step.Answer? {
      AcknowledgingArming(db, step);
    } else if !(step.AddTarget? || step.SetConnector? || step.SetSource?) && Attempt(db, step).Ok? {
      ClosingArming(db, step);
    }
  }

  lemma RemoveArming(db: Db, owner: Owner, now: Time)
    ensures SameArming(db.evidence, RemoveOwner(db, owner, now).evidence)
  {
  }

  lemma SnapshotArming(db: Db, s: Snapshot, e: Id)
    requires Inv(db) && Linked(db) && ApplySnapshot(db, s).Ok? && e in db.evidence && Unarmed(db.evidence[e])
    ensures var db2 := ApplySnapshot(db, s).value;
      && e in db2.evidence
      && (Unarmed(db2.evidence[e]) <==> !(Observes(s, db.evidence[e]) && db.evidence[e].identity !in ReportedIds(s)))
  {
    hide ApplySnapshot, Inv;
    SnapshotMeaning(db, s);
  }

  /** An invalidation stays in force exactly until a step that re-arms it. */
  lemma InvalidationLasts(db: Db, step: Step, e: Id)
    requires Inv(db) && Linked(db) && Enabled(db, step) && e in db.evidence && Unarmed(db.evidence[e])
    ensures e in Next(db, step).evidence
    ensures Unarmed(Next(db, step).evidence[e]) <==>
      !(Rearms(db, step, db.evidence[e]) && Attempt(db, step).Ok?)
  {
    hide ApplySnapshot, ApplyNative, Shape, Clean, AckOk, Identities, Partial, SnapshotStands;
    match step
    case Observe(s) =>
      if ApplySnapshot(db, s).Ok? {
        SnapshotArming(db, s, e);
      }
    case ObserveNative(o) =>
      if ApplyNative(db, o).Ok? {
        NativeArming(db, o, e);
      }
    case _ => OtherArming(db, step);
  }

  /** No step of the run re-arms row `e`. */
  ghost predicate Undisturbed(db: Db, steps: seq<Step>, e: Id)
    decreases |steps|
  {
    steps == [] ||
    (&& Linked(db) && Enabled(db, steps[0]) && e in db.evidence
     && !Rearms(db, steps[0], db.evidence[e]) && Undisturbed(Next(db, steps[0]), steps[1..], e))
  }

  /** From the invalidation of an identity until a step that re-arms it, no evidence with that identity is active. */
  lemma {:induction false} RunSilenced(db: Db, steps: seq<Step>, db2: Db, e: Id)
    requires Inv(db) && Reaches(db, steps, db2) && e in db.evidence && Unarmed(db.evidence[e]) && Undisturbed(db, steps, e)
    ensures !HasActive(db2.evidence, db.evidence[e].identity)
    decreases |steps|
  {
    if steps != [] {
      InvalidationLasts(db, steps[0], e);
      StepInv(db, steps[0]);
      StepEvolves(db, steps[0], 0);
      assert EvidenceEvolves(db.evidence[e], Next(db, steps[0]).evidence[e]);
      RunSilenced(Next(db, steps[0]), steps[1..], db2, e);
    }
  }

  // ----- What a transaction closes, and nothing else -----

  /** Exactly the rows `es` stop being active; every other row is as it was. */
  ghost predicate ClosesExactly(evidence: map<Id, Evidence>, evidence2: map<Id, Evidence>, es: set<Id>)
  {
    && evidence2.Keys == evidence.Keys
    && (forall e :: e in evidence && e in es ==> !evidence2[e].active)
    && (forall e :: e in evidence && e !in es ==> evidence2[e] == evidence[e])
  }

  lemma CloseIsExact(db: Db, es: set<Id>, now: Time)
    requires forall e :: e in es ==> e in db.evidence && db.evidence[e].active
    ensures ClosesExactly(db.evidence, Close(db, es, now).evidence, es)
  {
    assert Close(db, es, now).evidence == ResolveRows(db, es, now).evidence;
  }

  lemma ArchiveClosesItsTarget(db: Db, t: string, now: Time)
    requires Archive(db, t, now).Ok?
    ensures ClosesExactly(db.evidence, Archive(db, t, now).value.evidence,
      set e | e in db.evidence && db.evidence[e].active && db.evidence[e].target == t)
  {
    CloseIsExact(db.(targets := db.targets[t := Archived]), ActiveOn(db.evidence, t), now);
  }

  lemma ReportClosesItsIdentity(db: Db, id: Identity, now: Time)
    requires UniqueIdentity(db.evidence)
    ensures ClosesExactly(db.evidence, ResolveEvidence(db, id, now).evidence,
      set e | e in db.evidence && db.evidence[e].active && db.evidence[e].identity == id)
  {
    var es := set e | e in db.evidence && db.evidence[e].active && db.evidence[e].identity == id;
    hide Close;
    match ActiveRow(db.evidence, id)
    case None => assert es == {};
    case Some(e) =>
      assert es == {e};
      CloseIsExact(db, {e}, now);
  }

  /** An invalidation closes and marks one row; it is in force until re-armed. */
  lemma InvalidateMarksOneRow(db: Db, i: Id, e: Id, now: Time)
    requires Invalidate(db, i, e, now).Ok? && EvidenceRow(db.evidence[e])
    ensures var db2 := Invalidate(db, i, e, now).value;
      ClosesExactly(db.evidence, db2.evidence, {e}) && Unarmed(db2.evidence[e]) && db2.evidence[e].identity == db.evidence[e].identity
  {
  }

  // ----- Answers that come late -----

  /**
   * The answers to a plan are recorded whatever happens between the plan and the answers: each planned row that is still
   * active has its answer, and each row that joined meanwhile is synchronized or in the next plan.
   */
  lemma AnswersReachTheirPlan(db: Db, i: Id, now: Time, steps: seq<Step>, db2: Db, results: seq<AckResult>, accepts: Id -> bool)
    requires Inv(db) && AckLocal(db, i, now).Ok? && Reaches(AckLocal(db, i, now).value, steps, db2)
    requires Answers(results, Plan(AckLocal(db, i, now).value.evidence, i), accepts)
    ensures Acknowledged(db2, i)
    ensures var plan, db3 := Plan(AckLocal(db, i, now).value.evidence, i), CompleteAck(db2, i, results);
      && Reached(db3, i)
      && forall e :: e in plan && e in db2.evidence && Remote(db2.evidence[e], i) ==>
        e in db3.evidence && AnsweredAs(db2.evidence[e], db3.evidence[e], accepts(e))
  {
    hide Inv, AckLocal, CompleteAck, Plan, Answers, RecordResults, Reached;
    var planned := AckLocal(db, i, now).value;
    AckLocalInv(db, i, now);
    AckLocalAcknowledges(db, i, now);
    RunInv(planned, steps, db2);
    RunAcknowledged(planned, steps, db2, i);
    CompleteAckInv(db2, i, results);
    CompleteAckRows(db2, i, results);
    RecordResultsAre(db2, i, results, Plan(planned.evidence, i), accepts);
    InvAck(CompleteAck(db2, i, results));
    AcknowledgedIsReached(CompleteAck(db2, i, results), i);
  }

  lemma AckLocalAcknowledges(db: Db, i: Id, now: Time)
    requires AckLocal(db, i, now).Ok?
    ensures Acknowledged(AckLocal(db, i, now).value, i)
  {
  }

  lemma InvAck(db: Db)
    requires Inv(db)
    ensures AckOk(db, {})
  {
  }

  // ----- No evidence is forgotten by an acknowledgement -----

  /** Every active Zabbix row is synchronized, hence acknowledged upstream, or in the next plan. */
  ghost predicate Reached(db: Db, i: Id)
  {
    && i in db.incidents && db.incidents[i].ackSync == DerivedSync(db.evidence, i)
    && forall e :: e in db.evidence && Remote(db.evidence[e], i) ==>
      (db.evidence[e].ackSync == Synchronized && db.evidence[e].upstream) || e in Plan(db.evidence, i)
  }

  lemma AcknowledgedIsReached(db: Db, i: Id)
    requires AckOk(db, {}) && Acknowledged(db, i)
    ensures Reached(db, i)
  {
    forall e | e in db.evidence && Remote(db.evidence[e], i)
      ensures RowAck(db.evidence[e], true)
    {
      assert RowAck(db.evidence[e], Acknowledged(db, db.evidence[e].incident));
    }
  }

  /** Once acknowledged, an incident stays so through any run, whatever evidence joins it. */
  lemma {:induction false} RunAcknowledged(db: Db, steps: seq<Step>, db2: Db, i: Id)
    requires Inv(db) && Reaches(db, steps, db2) && Acknowledged(db, i)
    ensures i in db2.incidents && db2.incidents[i].acknowledgedAt == db.incidents[i].acknowledgedAt && Reached(db2, i)
    decreases |steps|
  {
    hide Shape, Clean, Identities, Next, DerivedSync;
    if steps == [] {
      AcknowledgedIsReached(db, i);
    } else {
      var db1 := Next(db, steps[0]);
      StepInv(db, steps[0]);
      StepEvolves(db, steps[0], 0);
      assert IncidentEvolves(db.incidents[i], db1.incidents[i], At(steps[0], 0));
      RunAcknowledged(db1, steps[1..], db2, i);
    }
  }
}
