/** What follows a re-arming: the identity may report again until it is ruled out again. */
module IncidentRearming {
  import opened Common
  import opened Trigger
  import opened IncidentModel
  import opened IncidentCycle
  import opened IncidentSnapshot
  import opened IncidentStructure
  import opened IncidentInvariants
  import opened IncidentAggregates
  import opened IncidentIdentities
  import opened IncidentAcknowledgement
  import opened IncidentTransactions
  import opened IncidentStructureProofs
  import opened IncidentEvolution
  import opened IncidentReports
  import opened IncidentRuns
  import opened IncidentHistory
  import opened IncidentNative

  // ----- The step that re-arms -----

  /** A snapshot that does not report an identity lifts its suppression exactly if it observes every invalidation in force. */
  lemma SnapshotRearmsExactly(db: Db, s: Snapshot, id: Identity)
    requires Inv(db) && Linked(db) && ApplySnapshot(db, s).Ok? && id !in ReportedIds(s)
    ensures !Suppressed(ApplySnapshot(db, s).value.evidence, id) <==>
      forall e :: e in db.evidence && Unarmed(db.evidence[e]) && db.evidence[e].identity == id ==> Observes(s, db.evidence[e])
  {
    hide Inv, ApplySnapshot;
    var db2 := ApplySnapshot(db, s).value;
    SnapshotMeaning(db, s);
    SnapshotKeepsConnectors(db, s);
    SnapshotAddsNoMark(db, s);
    if e :| e in db.evidence && Unarmed(db.evidence[e]) && db.evidence[e].identity == id && !Observes(s, db.evidence[e]) {
      assert Unarmed(db2.evidence[e]) && db2.evidence[e].identity == id;
    }
    if e :| e in db2.evidence && Unarmed(db2.evidence[e]) && db2.evidence[e].identity == id {
      assert e in db.evidence && Unarmed(db.evidence[e]);
    }
  }

  /** A confirmed recovery lifts the suppression of its check. */
  lemma RecoveryRearms(db: Db, o: Observation)
    requires Inv(db) && Linked(db) && o.source in db.sources
    requires Evaluate(db.sources[o.source].policy, db.sources[o.source].streaks, o.outcome).recovered
    ensures ApplyNative(db, o).Ok? && !Suppressed(ApplyNative(db, o).value.evidence, NativeIdentity(o.source))
  {
    hide Inv, RecoverNative, Evaluate;
    var source := db.sources[o.source];
    NeverBoth(source.policy, source.streaks, o.outcome);
    var counted := Counted(db, o.source, Evaluate(source.policy, source.streaks, o.outcome).streaks);
    CountedInv(db, o.source, counted.sources[o.source].streaks);
    InvParts(counted);
    RecoveryLifts(counted, o.source, o.observedAt);
  }

  lemma RecoveryLifts(db: Db, source: string, now: Time)
    requires Identities(db)
    ensures !Suppressed(RecoverNative(db, source, now).evidence, NativeIdentity(source))
  {
    match ActiveRow(db.evidence, NativeIdentity(source))
    case Some(e) =>
      SilencedRow(db, e);
      ClosedOne(db, e, NativeIdentity(source), now);
    case None =>
      var rearmed := RearmIdentity(db, NativeIdentity(source), now);
      assert RecoverNative(db, source, now).evidence == rearmed.evidence;
  }

  // ----- No step but an invalidation suppresses -----

  /** Every row in force was in force before. */
  ghost predicate NoNewMark(evidence: map<Id, Evidence>, evidence2: map<Id, Evidence>)
  {
    forall e :: e in evidence2 && Unarmed(evidence2[e]) ==>
      e in evidence && Unarmed(evidence[e]) && evidence[e].identity == evidence2[e].identity
  }

  lemma NoNewMarkKeeps(evidence: map<Id, Evidence>, evidence2: map<Id, Evidence>, id: Identity)
    requires NoNewMark(evidence, evidence2) && !Suppressed(evidence, id)
    ensures !Suppressed(evidence2, id)
  {
  }

  lemma SnapshotAddsNoMark(db: Db, s: Snapshot)
    requires Inv(db) && Linked(db) && ApplySnapshot(db, s).Ok?
    ensures NoNewMark(db.evidence, ApplySnapshot(db, s).value.evidence)
  {
    hide Partial, ApplyFacts, Finish;
    var pass := Pass(db, {}, {}, {});
    var out := ApplyFacts(pass, Prepared(s), s.observedAt).value;
    ApplyFactsReport(pass, Prepared(s), s.observedAt);
    FinishConcludes(out, s);
    ConcludedAddsNoMark(db.evidence, out.db.evidence, Finish(out, s).evidence, IdentitiesOf(Prepared(s)) - {}, s, out.seen);
  }

  lemma ConcludedAddsNoMark(a: map<Id, Evidence>, b: map<Id, Evidence>, c: map<Id, Evidence>, ids: set<Identity>,
      s: Snapshot, seen: set<Identity>)
    requires KeepsMarks(a, b, ids) && c.Keys == b.Keys && forall e :: e in b ==> Concluded(s, seen, b[e], c[e])
    ensures NoNewMark(a, c)
  {
    forall e | e in c && Unarmed(c[e])
      ensures e in a && Unarmed(a[e]) && a[e].identity == c[e].identity
    {
      assert Concluded(s, seen, b[e], c[e]);
    }
  }

  lemma NativeAddsNoMark(db: Db, o: Observation)
    requires Inv(db) && Linked(db) && ApplyNative(db, o).Ok?
    ensures NoNewMark(db.evidence, ApplyNative(db, o).value.evidence)
  {
    hide Inv, ApplyFact, Settle, RecoverNative, Evaluate, AdvanceDue;
    var source := db.sources[o.source];
    var decision := Evaluate(source.policy, source.streaks, o.outcome);
    var counted := Counted(db, o.source, decision.streaks);
    CountedInv(db, o.source, decision.streaks);
    InvParts(counted);
    if decision.triggered {
      TriggerAddsNoMark(counted, NativeFact(o, source.severity), o.observedAt);
    } else if decision.recovered {
      RecoveryAddsNoMark(counted, o.source, o.observedAt);
    } else {
      AdvanceEvidence(counted, o.observedAt);
    }
  }

  lemma TriggerAddsNoMark(db: Db, f: Fact, now: Time)
    requires Shape(db) && Linked(db) && Identities(db)
    ensures match ApplyFact(db, f, now)
      case Touched(next, i, p) => NoNewMark(db.evidence, Settle(next, {p}, {i}, now).evidence)
      case Ignored(next) => NoNewMark(db.evidence, next.evidence)
      case _ => true
  {
    hide ApplyFact, Shape, Settle;
    ApplyFactOutcome(db, f, now);
    match ApplyFact(db, f, now)
    case Touched(next, i, p) => SettleEvidence(next, {p}, {i}, now);
    case _ =>
  }

  lemma RecoveryAddsNoMark(db: Db, source: string, now: Time)
    ensures NoNewMark(db.evidence, RecoverNative(db, source, now).evidence)
  {
    match ActiveRow(db.evidence, NativeIdentity(source))
    case Some(e) => CloseAddsNoMark(db, {e}, now);
    case None => assert RecoverNative(db, source, now).evidence == RearmIdentity(db, NativeIdentity(source), now).evidence;
  }

  lemma CloseAddsNoMark(db: Db, es: set<Id>, now: Time)
    ensures NoNewMark(db.evidence, Close(db, es, now).evidence)
  {
    assert Close(db, es, now).evidence == ResolveRows(db, es, now).evidence;
  }

  lemma SameRowsAddNoMark(evidence: map<Id, Evidence>, evidence2: map<Id, Evidence>)
    requires SameStandings(evidence, evidence2)
    ensures NoNewMark(evidence, evidence2)
  {
    forall e | e in evidence
      ensures SameStanding(evidence[e], evidence2[e])
    {
    }
  }

  lemma ConservedAddsNoMark(evidence: map<Id, Evidence>, evidence2: map<Id, Evidence>)
    requires Conserved(evidence, evidence2)
    ensures NoNewMark(evidence, evidence2)
  {
    forall e | e in evidence
      ensures Unarmed(evidence2[e]) == Unarmed(evidence[e]) && evidence2[e].identity == evidence[e].identity
    {
      assert evidence2[e] == evidence[e].(impact := evidence2[e].impact, target := evidence2[e].target);
    }
  }

  lemma StructureAddsNoMark(db: Db, step: Step)
    requires Inv(db) && Linked(db) && Enabled(db, step) && (step.Merge? || step.Reassign?) && Attempt(db, step).Ok?
    ensures NoNewMark(db.evidence, Next(db, step).evidence)
  {
    hide Inv, MergeAll, ReassignAll, NoNewMark;
    match step
    case Merge(primary, secondary, order, now) =>
      MergeTargetsRows(db, primary, secondary, order, now);
      ConservedAddsNoMark(db.evidence, Next(db, step).evidence);
    case Reassign(t, source, binding, order, now) =>
      ReassignSourceMeaning(db, t, source, binding, order, now);
      ConservedAddsNoMark(db.evidence, Next(db, step).evidence);
  }

  lemma AckAddsNoMark(db: Db, step: Step)
    requires Inv(db) && Linked(db) && Enabled(db, step) && (step.Acknowledge? || step.Answer?) && Attempt(db, step).Ok?
    ensures NoNewMark(db.evidence, Next(db, step).evidence)
  {
    hide NoNewMark;
    match step
    case Acknowledge(i, now) =>
      AckLocalOnly(db, i, now);
      AckOnlyStandings(db, Next(db, step));
      SameRowsAddNoMark(db.evidence, Next(db, step).evidence);
    case Answer(i, results) =>
      RecordResultsAnswered(db, i, results);
      AnsweredStandings(db, RecordResults(db, i, results), i);
      SameRowsAddNoMark(db.evidence, Next(db, step).evidence);
  }

  lemma RemovalAddsNoMark(db: Db, owner: Owner, now: Time)
    ensures NoNewMark(db.evidence, RemoveOwner(db, owner, now).evidence)
  {
    CloseAddsNoMark(db, ActiveOwned(db.evidence, owner), now);
  }

  lemma InvalidationMarksItsRow(db: Db, i: Id, e: Id, now: Time)
    requires Invalidate(db, i, e, now).Ok?
    ensures forall x :: x in db.evidence && x != e ==> Invalidate(db, i, e, now).value.evidence[x] == db.evidence[x]
    ensures Invalidate(db, i, e, now).value.evidence.Keys == db.evidence.Keys
    ensures Invalidate(db, i, e, now).value.evidence[e].identity == db.evidence[e].identity
  {
  }

  /** The step rules out a row of the identity. */
  predicate RulesOut(db: Db, step: Step, id: Identity)
  {
    step.RuleOut? && step.evidence in db.evidence && db.evidence[step.evidence].identity == id
  }

  /** An identity that may report still may after any step that does not rule it out. */
  lemma StaysArmed(db: Db, step: Step, id: Identity)
    requires Inv(db) && Linked(db) && Enabled(db, step) && !Suppressed(db.evidence, id) && !RulesOut(db, step, id)
    ensures !Suppressed(Next(db, step).evidence, id)
  {
    hide Inv, ApplySnapshot, ApplyNative, AckLocal, CompleteAck, AdvanceDue, Close, RemoveOwner, MergeTargets, ReassignSource, NoNewMark;
    if Attempt(db, step).Ok? {
      var evidence2 := Next(db, step).evidence;
      if step.RuleOut? {
        InvalidationMarksItsRow(db, step.incident, step.evidence, step.now);
      } else if step.Observe? {
        SnapshotAddsNoMark(db, step.s);
        NoNewMarkKeeps(db.evidence, evidence2, id);
      } else if step.ObserveNative? {
        NativeAddsNoMark(db, step.o);
        NoNewMarkKeeps(db.evidence, evidence2, id);
      } else if step.Merge? || step.Reassign? {
        StructureAddsNoMark(db, step);
        NoNewMarkKeeps(db.evidence, evidence2, id);
      } else if step.Acknowledge? || step.Answer? {
        AckAddsNoMark(db, step);
        NoNewMarkKeeps(db.evidence, evidence2, id);
      } else {
        ClosingStaysArmed(db, step, id);
      }
    }
  }

  lemma ClosingStaysArmed(db: Db, step: Step, id: Identity)
    requires Inv(db) && Linked(db) && Enabled(db, step) && Attempt(db, step).Ok? && !Suppressed(db.evidence, id)
    requires step.Report? || step.Advance? || step.ArchiveTarget? || step.RestoreTarget? || step.Remove? ||
      step.AddTarget? || step.SetConnector? || step.SetSource?
    ensures !Suppressed(Next(db, step).evidence, id)
  {
    hide Inv, Close, NoNewMark, AdvanceDue, RemoveOwner;
    var evidence2 := Next(db, step).evidence;
    match step
    case Report(x, now) =>
      match ActiveRow(db.evidence, x) {
        case None =>
        case Some(e) =>
          CloseAddsNoMark(db, {e}, now);
          NoNewMarkKeeps(db.evidence, evidence2, id);
      }
    case Advance(now) => AdvanceEvidence(db, now);
    case ArchiveTarget(t, now) =>
      CloseAddsNoMark(db.(targets := db.targets[t := Archived]), ActiveOn(db.evidence, t), now);
      NoNewMarkKeeps(db.evidence, evidence2, id);
    case Remove(owner, now) =>
      RemovalAddsNoMark(db, owner, now);
      NoNewMarkKeeps(db.evidence, evidence2, id);
    case _ =>
  }

  // ----- Runs -----

  /** No step of the run rules the identity out. */
  ghost predicate Spares(db: Db, steps: seq<Step>, id: Identity)
    decreases |steps|
  {
    steps == [] ||
    (&& Linked(db) && Enabled(db, steps[0]) && !RulesOut(db, steps[0], id) && Spares(Next(db, steps[0]), steps[1..], id))
  }

  lemma {:induction false} RunStaysArmed(db: Db, steps: seq<Step>, db2: Db, id: Identity)
    requires Inv(db) && Reaches(db, steps, db2) && !Suppressed(db.evidence, id) && Spares(db, steps, id)
    ensures Inv(db2) && !Suppressed(db2.evidence, id)
    decreases |steps|
  {
    hide Inv, Next, Suppressed;
    if steps != [] {
      StaysArmed(db, steps[0], id);
      StepInv(db, steps[0]);
      RunStaysArmed(Next(db, steps[0]), steps[1..], db2, id);
    }
  }

  /**
   * After a snapshot that re-armed an identity, and as long as it is not ruled out again, a report of it on a live target
   * leaves it active.
   */
  lemma ReportAfterRearming(db: Db, s: Snapshot, id: Identity, steps: seq<Step>, db2: Db, s2: Snapshot)
    requires Inv(db) && Linked(db) && ApplySnapshot(db, s).Ok? && id !in ReportedIds(s)
    requires forall e :: e in db.evidence && Unarmed(db.evidence[e]) && db.evidence[e].identity == id ==> Observes(s, db.evidence[e])
    requires Reaches(ApplySnapshot(db, s).value, steps, db2) && Spares(ApplySnapshot(db, s).value, steps, id)
    requires Linked(db2) && ApplySnapshot(db2, s2).Ok? && id in ReportedIds(s2)
    requires IsLive(db2.targets, Reporter(Prepared(s2), id).target)
    ensures HasActive(ApplySnapshot(db2, s2).value.evidence, id)
  {
    hide Inv, ApplySnapshot, Suppressed;
    SnapshotInv(db, s);
    SnapshotRearmsExactly(db, s, id);
    RunStaysArmed(ApplySnapshot(db, s).value, steps, db2, id);
    SnapshotMeaning(db2, s2);
    assert Decided(db2, ApplySnapshot(db2, s2).value.evidence, id, Reporter(Prepared(s2), id).target);
  }

  /** After a confirmed recovery, likewise, the next trigger on a live target raises the evidence of the check again. */
  lemma TriggerAfterRecovery(db: Db, o: Observation, steps: seq<Step>, db2: Db, o2: Observation)
    requires Inv(db) && Linked(db) && o.source in db.sources
    requires Evaluate(db.sources[o.source].policy, db.sources[o.source].streaks, o.outcome).recovered
    requires ApplyNative(db, o).Ok? && Reaches(ApplyNative(db, o).value, steps, db2)
    requires Spares(ApplyNative(db, o).value, steps, NativeIdentity(o.source))
    requires Linked(db2) && o2.source == o.source && o2.source in db2.sources
    requires Evaluate(db2.sources[o2.source].policy, db2.sources[o2.source].streaks, o2.outcome).triggered
    requires IsLive(db2.targets, o2.target) && Complete(NativeFact(o2, 0))
    ensures ApplyNative(db2, o2).Ok? && HasActive(ApplyNative(db2, o2).value.evidence, NativeIdentity(o.source))
  {
    hide Inv, ApplyNative, Suppressed, Evaluate, Complete;
    NativeInv(db, o);
    RecoveryRearms(db, o);
    RunStaysArmed(ApplyNative(db, o).value, steps, db2, NativeIdentity(o.source));
    TriggerRaises(db2, o2);
  }

  lemma TriggerRaises(db: Db, o: Observation)
    requires Inv(db) && Linked(db) && o.source in db.sources && !Suppressed(db.evidence, NativeIdentity(o.source))
    requires Evaluate(db.sources[o.source].policy, db.sources[o.source].streaks, o.outcome).triggered
    requires IsLive(db.targets, o.target) && Complete(NativeFact(o, 0))
    ensures ApplyNative(db, o).Ok? && HasActive(ApplyNative(db, o).value.evidence, NativeIdentity(o.source))
  {
    hide Inv, ApplyFact, Settle, Evaluate, Complete;
    var source := db.sources[o.source];
    var counted := Counted(db, o.source, Evaluate(source.policy, source.streaks, o.outcome).streaks);
    CountedInv(db, o.source, counted.sources[o.source].streaks);
    TriggeredEffect(counted, o, source.severity, NativeIdentity(o.source));
  }
}
