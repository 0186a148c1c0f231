/** Native checks over whole runs: their evidence follows the decisions their history calls for. */
module IncidentNative {
  import opened Common
  import opened Trigger
  import opened IncidentModel
  import opened IncidentCycle
  import opened IncidentSnapshot
  import opened IncidentInvariants
  import opened IncidentAggregates
  import opened IncidentIdentities
  import opened IncidentAcknowledgement
  import opened IncidentTransactions
  import opened IncidentStructure
  import opened IncidentStructureProofs
  import opened IncidentReports
  import opened IncidentRuns

  /** The evidence of a check, its suppression and its counters. */
  ghost predicate Tracks(db: Db, source: string, policy: Policy, history: seq<Outcome>)
  {
    && source in db.sources && db.sources[source].policy == policy
    && db.sources[source].streaks == After(policy, history)
    && !Suppressed(db.evidence, NativeIdentity(source))
    && (HasActive(db.evidence, NativeIdentity(source)) <==> Raised(policy, history))
  }

  /** The step leaves the check alone unless it observes it, on a live target. */
  ghost predicate Quiet(db: Db, step: Step, source: string)
  {
    match step
    case Observe(s) => s.origin != Native
    case ObserveNative(o) => o.source == source ==> IsLive(db.targets, o.target) && Complete(NativeFact(o, 0))
    case Report(id, _) => id != NativeIdentity(source)
    case RuleOut(_, e, _) => Foreign(db.evidence, {e}, source)
    case ArchiveTarget(t, _) => Foreign(db.evidence, ActiveOn(db.evidence, t), source)
    case Remove(owner, _) => Foreign(db.evidence, ActiveOwned(db.evidence, owner), source)
    case SetSource(changed, _) => changed != source
    case _ => true
  }

  /** None of the rows belongs to the check. */
  ghost predicate Foreign(evidence: map<Id, Evidence>, es: set<Id>, source: string)
  {
    forall e :: e in es && e in evidence ==> evidence[e].identity != NativeIdentity(source)
  }

  /** What a step that is not about the check leaves of it. */
  ghost predicate Spared(db: Db, db2: Db, source: string)
  {
    && (source in db.sources ==> source in db2.sources && db2.sources[source] == db.sources[source])
    && (HasActive(db2.evidence, NativeIdentity(source)) <==> HasActive(db.evidence, NativeIdentity(source)))
    && (Suppressed(db2.evidence, NativeIdentity(source)) ==> Suppressed(db.evidence, NativeIdentity(source)))
  }

  lemma SparedTracks(db: Db, db2: Db, source: string, policy: Policy, history: seq<Outcome>)
    requires Tracks(db, source, policy, history) && Spared(db, db2, source)
    ensures Tracks(db2, source, policy, history)
  {
  }

  /** Rows keep their identity, their life and their marks. */
  lemma SameRowsSpare(db: Db, db2: Db, source: string)
    requires db2.sources == db.sources && SameStandings(db.evidence, db2.evidence)
    ensures Spared(db, db2, source)
  {
    forall e | e in db.evidence
      ensures SameStanding(db.evidence[e], db2.evidence[e])
      ensures Unarmed(db2.evidence[e]) == Unarmed(db.evidence[e])
    {
    }
  }

  // ----- Snapshots of other origins -----

  lemma ForeignIdentities(s: Snapshot, id: Identity)
    requires id in ReportedIds(s)
    ensures id.origin == s.origin
  {
    ReportedIdsAreSignals(s);
    var k :| 0 <= k < |RawFacts(s)| && RawFacts(s)[k].identity == id;
  }

  lemma {:induction false} ApplyFactsSources(pass: Pass, facts: seq<Fact>, now: Time)
    requires Linked(pass.db) && ApplyFacts(pass, facts, now).Ok?
    ensures ApplyFacts(pass, facts, now).value.db.sources == pass.db.sources
    decreases |facts|
  {
    if facts != [] {
      ApplyFactSources(pass.db, facts[0], now);
      ApplyFactsSources(ApplyOne(pass, facts[0], now).value, facts[1..], now);
    }
  }

  lemma OpenFactSources(db: Db, f: Fact, now: Time)
    requires Linked(db) && ValidSeverity(f.severity)
    ensures !OpenFact(db, f, now).Failed? ==> OpenFact(db, f, now).db.sources == db.sources
  {
    hide Hosts, Propagates, Resumable, EvidenceWindow, ExtendPropagation, Linked, Suppressed;
  }

  lemma ApplyFactSources(db: Db, f: Fact, now: Time)
    requires Linked(db)
    ensures !ApplyFact(db, f, now).Failed? ==> ApplyFact(db, f, now).db.sources == db.sources
  {
    hide OpenFact, Linked;
    if Complete(f) {
      match ActiveRow(db.evidence, f.identity)
      case None => OpenFactSources(db, f, now);
      case Some(e) =>
        RetireLinks(db, e, now);
        OpenFactSources(Retire(db, e, now), f, now);
    }
  }

  lemma RetireLinks(db: Db, e: Id, now: Time)
    requires Linked(db) && e in db.evidence
    ensures Linked(Retire(db, e, now)) && Retire(db, e, now).sources == db.sources
  {
  }

  lemma SnapshotSpares(db: Db, s: Snapshot, source: string)
    requires Inv(db) && Linked(db) && s.origin != Native && ApplySnapshot(db, s).Ok?
    ensures Spared(db, ApplySnapshot(db, s).value, source)
  {
    hide Inv, ApplyFacts, Finish;
    var db2, id := ApplySnapshot(db, s).value, NativeIdentity(source);
    SnapshotMeaning(db, s);
    SnapshotKeepsConnectors(db, s);
    SnapshotSources(db, s);
    if id in ReportedIds(s) {
      ForeignIdentities(s, id);
    }
    assert forall e :: e in db.evidence && db.evidence[e].identity == id ==>
      db2.evidence[e].active == db.evidence[e].active && !Observes(s, db.evidence[e]);
    SnapshotMarks(db, s, id);
  }

  lemma SnapshotSources(db: Db, s: Snapshot)
    requires Linked(db) && ApplySnapshot(db, s).Ok?
    ensures ApplySnapshot(db, s).value.sources == db.sources
  {
    ApplyFactsSources(Pass(db, {}, {}, {}), Prepared(s), s.observedAt);
  }

  /** A snapshot invalidates nothing. */
  lemma SnapshotMarks(db: Db, s: Snapshot, id: Identity)
    requires Inv(db) && Linked(db) && ApplySnapshot(db, s).Ok?
    ensures Suppressed(ApplySnapshot(db, s).value.evidence, id) ==> Suppressed(db.evidence, id)
  {
    hide Partial, ApplyFacts, Finish;
    var pass := Pass(db, {}, {}, {});
    var out := ApplyFacts(pass, Prepared(s), s.observedAt).value;
    var db2 := Finish(out, s);
    ApplyFactsReport(pass, Prepared(s), s.observedAt);
    FinishConcludes(out, s);
    KeepsMarksSuppressed(db.evidence, out.db.evidence, IdentitiesOf(Prepared(s)) - {}, id);
    if e :| e in db2.evidence && Unarmed(db2.evidence[e]) && db2.evidence[e].identity == id {
      assert Concluded(s, out.seen, out.db.evidence[e], db2.evidence[e]);
    }
  }

  // ----- Observations of a check -----

  /** Other identities keep their standing. */
  lemma OthersSpare(evidence: map<Id, Evidence>, evidence2: map<Id, Evidence>, id: Identity, other: Identity)
    requires Others(evidence, evidence2, id) && other != id
    ensures HasActive(evidence2, other) <==> HasActive(evidence, other)
    ensures Suppressed(evidence2, other) ==> Suppressed(evidence, other)
  {
    OthersKeepMarks(evidence, evidence2, id);
    KeepsMarksActive(evidence, evidence2, {id}, other);
    KeepsMarksSuppressed(evidence, evidence2, {id}, other);
  }

  /** A trigger opens or keeps the evidence of its check, and touches no other identity. */
  lemma TriggeredEffect(db: Db, o: Observation, severity: Severity, other: Identity)
    requires Inv(db) && Linked(db)
    ensures match ApplyFact(db, NativeFact(o, severity), o.observedAt)
      case Touched(next, i, p) =>
        var settled := Settle(next, {p}, {i}, o.observedAt);
        && HasActive(settled.evidence, NativeIdentity(o.source)) && settled.sources == db.sources
        && (Suppressed(settled.evidence, NativeIdentity(o.source)) ==> Suppressed(db.evidence, NativeIdentity(o.source)))
        && (other != NativeIdentity(o.source) ==>
              && (HasActive(settled.evidence, other) <==> HasActive(db.evidence, other))
              && (Suppressed(settled.evidence, other) ==> Suppressed(db.evidence, other)))
      case Ignored(next) => Suppressed(db.evidence, NativeIdentity(o.source)) && next == db
      case Skipped(_) => !IsLive(db.targets, o.target)
      case Failed(_) => !Complete(NativeFact(o, 0)) || !IsLive(db.targets, o.target)
  {
    hide Inv, Settle, OpenFact, Refresh, Retire;
    var f := NativeFact(o, severity);
    InvParts(db);
    ApplyFactOutcome(db, f, o.observedAt);
    ApplyFactSources(db, f, o.observedAt);
    FailsWhen(db, f, o.observedAt);
    assert Complete(f) == Complete(NativeFact(o, 0));
    match ApplyFact(db, f, o.observedAt)
    case Touched(next, i, p) =>
      SettleEvidence(next, {p}, {i}, o.observedAt);
      OthersKeepMarks(db.evidence, next.evidence, f.identity);
      KeepsMarksSuppressed(db.evidence, next.evidence, {f.identity}, f.identity);
      if other != f.identity {
        OthersSpare(db.evidence, next.evidence, f.identity, other);
      }
    case _ =>
  }

  lemma InvParts(db: Db)
    requires Inv(db)
    ensures Shape(db) && Identities(db)
  {
  }

  lemma SettleEvidence(db: Db, ps: set<Id>, ns: set<Id>, now: Time)
    ensures Settle(db, ps, ns, now).evidence == db.evidence && Settle(db, ps, ns, now).sources == db.sources
  {
  }

  lemma FailsWhen(db: Db, f: Fact, now: Time)
    requires Shape(db) && Linked(db) && Identities(db)
    ensures ApplyFact(db, f, now).Failed? ==> !Complete(f) || !IsLive(db.targets, f.target)
    ensures ApplyFact(db, f, now).Ignored? ==> ApplyFact(db, f, now).db == db
  {
    hide Refresh, OpenImpact, AddEvidence;
    if Complete(f) {
      match ActiveRow(db.evidence, f.identity)
      case None =>
      case Some(e) =>
        SuppressedAfterRetire(db, e, f.identity, now);
        SilencedRow(db, e);
    }
  }

  lemma SilencedRow(db: Db, e: Id)
    requires Identities(db) && e in db.evidence && db.evidence[e].active
    ensures !Suppressed(db.evidence, db.evidence[e].identity)
  {
  }

  /** A recovery closes the evidence of its check, and touches no other identity. */
  lemma RecoveredEffect(db: Db, source: string, other: Identity, now: Time)
    requires Identities(db)
    ensures var db2 := RecoverNative(db, source, now);
      && !HasActive(db2.evidence, NativeIdentity(source)) && db2.sources == db.sources
      && (forall id :: Suppressed(db2.evidence, id) ==> Suppressed(db.evidence, id))
      && (other != NativeIdentity(source) ==> (HasActive(db2.evidence, other) <==> HasActive(db.evidence, other)))
  {
    match ActiveRow(db.evidence, NativeIdentity(source))
    case Some(e) => ClosedOne(db, e, other, now);
    case None =>
      var rearmed := RearmIdentity(db, NativeIdentity(source), now);
      assert RecoverNative(db, source, now).evidence == rearmed.evidence;
      assert forall e :: e in db.evidence ==>
        rearmed.evidence[e].active == db.evidence[e].active && rearmed.evidence[e].identity == db.evidence[e].identity;
  }

  lemma ClosedOne(db: Db, e: Id, other: Identity, now: Time)
    requires Identities(db) && e in db.evidence && db.evidence[e].active
    ensures var db2 := Close(db, {e}, now);
      && !HasActive(db2.evidence, db.evidence[e].identity) && db2.sources == db.sources
      && (forall id :: Suppressed(db2.evidence, id) ==> Suppressed(db.evidence, id))
      && (other != db.evidence[e].identity ==> (HasActive(db2.evidence, other) <==> HasActive(db.evidence, other)))
  {
    var db2 := Close(db, {e}, now);
    assert db2.evidence == ResolveRows(db, {e}, now).evidence;
    forall x | x in db.evidence
      ensures Unarmed(db2.evidence[x]) == Unarmed(db.evidence[x]) && db2.evidence[x].identity == db.evidence[x].identity
    {
    }
  }

  lemma OwnObservation(db: Db, o: Observation, policy: Policy, history: seq<Outcome>)
    requires Inv(db) && Linked(db) && ValidPolicy(policy) && Tracks(db, o.source, policy, history)
    requires IsLive(db.targets, o.target) && Complete(NativeFact(o, 0))
    ensures ApplyNative(db, o).Ok? && Tracks(ApplyNative(db, o).value, o.source, policy, history + [o.outcome])
  {
    hide Inv, ApplyFact, Settle, RecoverNative, Evaluate, Raised, After, Triggers, Recovers, Complete, AdvanceDue;
    var source := db.sources[o.source];
    var decision := Evaluate(policy, source.streaks, o.outcome);
    var counted := Counted(db, o.source, decision.streaks);
    DecisionFromHistory(policy, history, o.outcome);
    RaisedSnoc(policy, history, o.outcome);
    CountedInv(db, o.source, decision.streaks);
    InvParts(counted);
    if decision.triggered {
      TriggeredEffect(counted, o, source.severity, NativeIdentity(o.source));
    } else if decision.recovered {
      NeverBoth(policy, source.streaks, o.outcome);
      RecoveredEffect(counted, o.source, NativeIdentity(o.source), o.observedAt);
    } else {
      AdvanceEvidence(counted, o.observedAt);
    }
  }

  lemma NeverBoth(policy: Policy, streaks: Streaks, outcome: Outcome)
    ensures !(Evaluate(policy, streaks, outcome).triggered && Evaluate(policy, streaks, outcome).recovered)
  {
  }

  lemma AdvanceEvidence(db: Db, now: Time)
    ensures AdvanceDue(db, now).evidence == db.evidence && AdvanceDue(db, now).sources == db.sources
  {
  }

  lemma CountedInv(db: Db, source: string, streaks: Streaks)
    requires Inv(db) && Linked(db) && source in db.sources
    ensures Inv(Counted(db, source, streaks)) && Linked(Counted(db, source, streaks))
  {
    OutsidePartial(db, Counted(db, source, streaks), {}, {});
  }

  lemma OtherObservation(db: Db, o: Observation, source: string)
    requires Inv(db) && Linked(db) && o.source != source && ApplyNative(db, o).Ok?
    ensures Spared(db, ApplyNative(db, o).value, source)
  {
    hide Inv, ApplyFact, Settle, RecoverNative, Evaluate, AdvanceDue;
    var check := db.sources[o.source];
    var decision := Evaluate(check.policy, check.streaks, o.outcome);
    var counted := Counted(db, o.source, decision.streaks);
    CountedInv(db, o.source, decision.streaks);
    InvParts(counted);
    assert NativeIdentity(source) != NativeIdentity(o.source);
    if decision.triggered {
      TriggeredEffect(counted, o, check.severity, NativeIdentity(source));
    } else if decision.recovered {
      RecoveredEffect(counted, o.source, NativeIdentity(source), o.observedAt);
    } else {
      AdvanceEvidence(counted, o.observedAt);
    }
  }

  // ----- Whole runs -----

  /** What the steps of a run observed about a check. */
  function Outcomes(steps: seq<Step>, source: string): seq<Outcome>
  {
    if steps == [] then []
    else
      (if steps[0].ObserveNative? && steps[0].o.source == source then [steps[0].o.outcome] else []) + Outcomes(steps[1..], source)
  }

  ghost predicate QuietRun(db: Db, steps: seq<Step>, source: string)
    decreases |steps|
  {
    steps == [] ||
    (&& Linked(db) && Enabled(db, steps[0]) && Quiet(db, steps[0], source)
     && QuietRun(Next(db, steps[0]), steps[1..], source))
  }

  lemma AckSpares(db: Db, step: Step, source: string)
    requires Inv(db) && Linked(db) && Enabled(db, step) && (step.Acknowledge? || step.Answer?) && Attempt(db, step).Ok?
    ensures Spared(db, Next(db, step), source)
  {
    match step
    case Acknowledge(i, now) =>
      AckLocalOnly(db, i, now);
      AckOnlyStandings(db, Next(db, step));
      SameRowsSpare(db, Next(db, step), source);
    case Answer(i, results) =>
      RecordResultsAnswered(db, i, results);
      AnsweredStandings(db, RecordResults(db, i, results), i);
      SameRowsSpare(db, Next(db, step), source);
  }

  lemma StepTracks(db: Db, step: Step, source: string, policy: Policy, history: seq<Outcome>)
    requires Inv(db) && Linked(db) && Enabled(db, step) && Quiet(db, step, source)
    requires ValidPolicy(policy) && Tracks(db, source, policy, history)
    ensures Tracks(Next(db, step), source, policy, history + Outcomes([step], source))
  {
    hide Inv, Tracks, Spared, ApplySnapshot, ApplyNative, AckLocal, CompleteAck, AdvanceDue;
    assert Outcomes([step], source) == if step.ObserveNative? && step.o.source == source then [step.o.outcome] else [];
    assert history + [] == history;
    if step.ObserveNative? && step.o.source == source {
      OwnObservation(db, step.o, policy, history);
    } else {
      if Attempt(db, step).Ok? {
        match step {
          case Observe(s) => SnapshotSpares(db, s, source);
          case ObserveNative(o) => OtherObservation(db, o, source);
          case Advance(now) => AdvanceSpares(db, now, source);
          case Acknowledge(_, _) => AckSpares(db, step, source);
          case Answer(_, _) => AckSpares(db, step, source);
          case Merge(_, _, _, _) => StructureSpares(db, step, source);
          case Reassign(_, _, _, _, _) => StructureSpares(db, step, source);
          case Report(id, now) => ReportSpares(db, id, now, source);
          case RuleOut(i, e, now) => RuleOutSpares(db, i, e, now, source);
          case ArchiveTarget(t, now) => ArchiveSpares(db, t, now, source);
          case Remove(owner, now) => RemoveSpares(db, owner, now, source);
          case _ => ElsewhereSpares(db, Next(db, step), source);
        }
        SparedTracks(db, Next(db, step), source, policy, history);
      }
    }
  }

  lemma AdvanceSpares(db: Db, now: Time, source: string)
    ensures Spared(db, AdvanceDue(db, now), source)
  {
  }

  lemma ElsewhereSpares(db: Db, db2: Db, source: string)
    requires source in db.sources ==> source in db2.sources && db2.sources[source] == db.sources[source]
    requires db2.evidence == db.evidence
    ensures Spared(db, db2, source)
  {
  }

  /** Closing or marking rows of other identities. */
  lemma ForeignSpares(db: Db, db2: Db, es: set<Id>, source: string)
    requires Foreign(db.evidence, es, source) && db2.sources == db.sources && db2.evidence.Keys == db.evidence.Keys
    requires forall e :: e in db.evidence ==> db2.evidence[e].identity == db.evidence[e].identity
    requires forall e :: e in db.evidence && e !in es ==>
      db2.evidence[e].active == db.evidence[e].active && (Unarmed(db2.evidence[e]) ==> Unarmed(db.evidence[e]))
    ensures Spared(db, db2, source)
  {
  }

  lemma CloseSpares(db: Db, es: set<Id>, now: Time, source: string)
    requires Foreign(db.evidence, es, source)
    ensures Spared(db, Close(db, es, now), source)
  {
    assert Close(db, es, now).evidence == ResolveRows(db, es, now).evidence;
    ForeignSpares(db, Close(db, es, now), es, source);
  }

  lemma ReportSpares(db: Db, id: Identity, now: Time, source: string)
    requires id != NativeIdentity(source)
    ensures Spared(db, ResolveEvidence(db, id, now), source)
  {
    hide Close;
    match ActiveRow(db.evidence, id)
    case None =>
    case Some(e) => CloseSpares(db, {e}, now, source);
  }

  lemma RuleOutSpares(db: Db, i: Id, e: Id, now: Time, source: string)
    requires Foreign(db.evidence, {e}, source) && Invalidate(db, i, e, now).Ok?
    ensures Spared(db, Invalidate(db, i, e, now).value, source)
  {
    ForeignSpares(db, Invalidate(db, i, e, now).value, {e}, source);
  }

  lemma ArchiveSpares(db: Db, t: string, now: Time, source: string)
    requires Foreign(db.evidence, ActiveOn(db.evidence, t), source) && Archive(db, t, now).Ok?
    ensures Spared(db, Archive(db, t, now).value, source)
  {
    hide Close, ActiveOn;
    CloseSpares(db.(targets := db.targets[t := Archived]), ActiveOn(db.evidence, t), now, source);
  }

  lemma RemoveSpares(db: Db, owner: Owner, now: Time, source: string)
    requires Foreign(db.evidence, ActiveOwned(db.evidence, owner), source)
    ensures Spared(db, RemoveOwner(db, owner, now), source)
  {
    var closed := Close(db, ActiveOwned(db.evidence, owner), now);
    var db2 := RemoveOwner(db, owner, now);
    assert closed.evidence == ResolveRows(db, ActiveOwned(db.evidence, owner), now).evidence;
    DisownRelabels(closed, owner);
    ForeignSpares(db, db2, ActiveOwned(db.evidence, owner), source);
  }

  /** Corrections move evidence; they do not open, close or mark it. */
  lemma StructureSpares(db: Db, step: Step, source: string)
    requires Inv(db) && Linked(db) && Enabled(db, step) && (step.Merge? || step.Reassign?) && Attempt(db, step).Ok?
    ensures Spared(db, Next(db, step), source)
  {
    hide Inv, MergeAll, ReassignAll;
    var db2 := Next(db, step);
    match step {
      case Merge(primary, secondary, order, now) =>
        MergeTargetsRows(db, primary, secondary, order, now);
        MergeAllSources(db, order, primary, now);
      case Reassign(t, origin, binding, order, now) =>
        ReassignSourceMeaning(db, t, origin, binding, order, now);
        ReassignAllSources(db, order, t, origin, binding, now);
    }
    forall e | e in db.evidence
      ensures db2.evidence[e].active == db.evidence[e].active && db2.evidence[e].identity == db.evidence[e].identity
      ensures Unarmed(db2.evidence[e]) == Unarmed(db.evidence[e])
    {
      assert db2.evidence[e] == db.evidence[e].(impact := db2.evidence[e].impact, target := db2.evidence[e].target);
    }
    ForeignSpares(db, db2, {}, source);
  }

  lemma {:induction false} MergeAllSources(db: Db, order: seq<Id>, primary: string, now: Time)
    ensures MergeAll(db, order, primary, now).sources == db.sources
    decreases |order|
  {
    if order != [] {
      hide DerivedImpact, Relocate, EvidenceOf;
      MergeAllSources(if order[0] in db.impacts then MergeOne(db, order[0], primary, now) else db, order[1..], primary, now);
    }
  }

  lemma ReassignOneSources(db: Db, s: Id, t: string, source: string, binding: string, now: Time)
    requires s in db.impacts
    ensures ReassignOne(db, s, t, source, binding, now).sources == db.sources
  {
    hide SplitImpact, DerivedImpact, Relocate, Selected, EvidenceOf;
  }

  lemma {:induction false} ReassignAllSources(db: Db, order: seq<Id>, t: string, source: string, binding: string,
      now: Time)
    ensures ReassignAll(db, order, t, source, binding, now).sources == db.sources
    decreases |order|
  {
    hide ReassignOne;
    if order != [] {
      if order[0] in db.impacts {
        ReassignOneSources(db, order[0], t, source, binding, now);
      }
      ReassignAllSources(
        if order[0] in db.impacts then ReassignOne(db, order[0], t, source, binding, now) else db,
        order[1..], t, source, binding, now);
    }
  }

  /** In a run that never invalidates it, the evidence of a check is active iff its latest trigger follows its latest recovery. */
  lemma {:induction false} NativeFollowsHistory(db: Db, steps: seq<Step>, db2: Db, source: string, policy: Policy,
      history: seq<Outcome>)
    requires Inv(db) && Reaches(db, steps, db2) && QuietRun(db, steps, source)
    requires ValidPolicy(policy) && Tracks(db, source, policy, history)
    ensures Tracks(db2, source, policy, history + Outcomes(steps, source))
    decreases |steps|
  {
    hide Inv, Tracks, Quiet, Next, Linked, Enabled, ValidPolicy;
    if steps == [] {
      assert history + [] == history;
    } else {
      StepTracks(db, steps[0], source, policy, history);
      StepInv(db, steps[0]);
      var first := Outcomes([steps[0]], source);
      NativeFollowsHistory(Next(db, steps[0]), steps[1..], db2, source, policy, history + first);
      assert Outcomes(steps, source) == first + Outcomes(steps[1..], source);
      assert (history + first) + Outcomes(steps[1..], source) == history + Outcomes(steps, source);
    }
  }
}
