/** Windows that have run out are closed: no step that looks at the clock leaves one open. */
module IncidentDeadlines {
  import opened Common
  import opened Trigger
  import opened IncidentModel
  import opened IncidentCycle
  import opened IncidentSnapshot
  import opened IncidentInvariants
  import opened IncidentAggregates
  import opened IncidentIdentities
  import opened IncidentAcknowledgement
  import opened IncidentTransactions
  import opened IncidentRuns
  import opened IncidentEvolution
  import opened IncidentHistory

  /** The incident is active and its window, still open, has run out. */
  predicate RunOut(row: Incident, now: Time)
  {
    row.status == Active && row.propagation == Open && row.endsAt <= now
  }

  predicate NoneRunOut(db: Db, now: Time)
  {
    forall i :: i in db.incidents ==> !RunOut(db.incidents[i], now)
  }

  /** Incident `i` has an active impact. */
  predicate Affects(db: Db, i: Id)
  {
    exists p :: p in db.impacts && db.impacts[p].incident == i && db.impacts[p].status == Active
  }

  /** The window of the incident has been closed at `now`, and the incident resolved then if nothing is affected. */
  predicate EndedAt(db: Db, i: Id, now: Time)
  {
    && i in db.incidents && db.incidents[i].propagation == Closed && db.incidents[i].closedAt == Some(now)
    && (db.incidents[i].status == Resolved <==> !Affects(db, i))
    && (db.incidents[i].status == Resolved ==> db.incidents[i].resolvedAt == Some(now))
  }

  // ----- The advance itself -----

  lemma RunOutIsClosed(evidence: map<Id, Evidence>, impacts: map<Id, Impact>, live: int, i: Id, row: Incident, now: Time)
    requires RunOut(row, now)
    ensures var row2 := WithSync(evidence, i, Aggregated(impacts, live, i, row, now));
      && row2.propagation == Closed && row2.closedAt == Some(now)
      && (row2.status == Resolved <==> ActiveOf(impacts, i) == {}) && (row2.status == Resolved ==> row2.resolvedAt == Some(now))
  {
  }

  /** Exactly the incidents whose window has run out are touched, and all of them are closed. */
  lemma AdvanceCloses(db: Db, now: Time)
    ensures var db2 := AdvanceDue(db, now);
      && db2.incidents.Keys == db.incidents.Keys && db2 == db.(incidents := db2.incidents) && NoneRunOut(db2, now)
      && forall i :: i in db.incidents ==>
        if RunOut(db.incidents[i], now) then EndedAt(db2, i, now) else db2.incidents[i] == db.incidents[i]
  {
    hide Aggregated, WithSync, LiveTargetCount;
    var db2 := AdvanceDue(db, now);
    forall i | i in db.incidents
      ensures if RunOut(db.incidents[i], now) then EndedAt(db2, i, now) else db2.incidents[i] == db.incidents[i]
    {
      if RunOut(db.incidents[i], now) {
        RunOutIsClosed(db.evidence, db.impacts, LiveTargetCount(db.targets), i, db.incidents[i], now);
        ActiveMeansAffects(db2, i);
      }
    }
  }

  lemma ActiveMeansAffects(db: Db, i: Id)
    ensures ActiveOf(db.impacts, i) != {} <==> Affects(db, i)
  {
    if p :| p in db.impacts && db.impacts[p].incident == i && db.impacts[p].status == Active {
      assert p in ActiveOf(db.impacts, i);
    }
  }

  /** The same, row by row. */
  lemma AdvanceOnColumns(db: Db, now: Time)
    ensures var db2 := AdvanceDue(db, now);
      && db2.incidents.Keys == db.incidents.Keys
      && (forall i :: i in db2.incidents ==>
            !(db2.incidents[i].status == Active && db2.incidents[i].propagation == Open && db2.incidents[i].endsAt <= now))
      && forall i :: i in db2.incidents ==>
        var row := db.incidents[i];
        if row.status == Active && row.propagation == Open && row.endsAt <= now then
          && db2.incidents[i].propagation == Closed && db2.incidents[i].closedAt == Some(now)
          && (db2.incidents[i].status == Resolved <==>
                forall p :: p in db.impacts && db.impacts[p].incident == i ==> db.impacts[p].status == Resolved)
          && (db2.incidents[i].status == Resolved ==> db2.incidents[i].resolvedAt == Some(now))
        else db2.incidents[i] == row
  {
    hide AdvanceDue;
    AdvanceCloses(db, now);
    assert forall i :: Affects(AdvanceDue(db, now), i) == Affects(db, i);
  }

  /** Once the windows that have run out are closed, an active incident past its window has an active impact. */
  lemma AffectedWhileActive(db: Db, now: Time)
    requires Inv(db) && NoneRunOut(db, now)
    ensures forall i :: i in db.incidents && db.incidents[i].endsAt <= now && db.incidents[i].status == Active ==>
      exists p :: p in db.impacts && db.impacts[p].incident == i && db.impacts[p].status == Active
  {
    hide Inv;
    forall i | i in db.incidents && db.incidents[i].endsAt <= now && db.incidents[i].status == Active
      ensures Affects(db, i)
    {
      AgreesOn(db, i);
    }
  }

  // ----- Steps -----

  /** Every step that ends with an advance: the periodic one, a committed snapshot, a check that decides nothing or has nothing to close. */
  ghost predicate Advances(db: Db, step: Step, now: Time)
    requires Linked(db)
  {
    match step
    case Advance(at) => at == now
    case Observe(s) => s.observedAt == now && ApplySnapshot(db, s).Ok?
    case ObserveNative(o) =>
      && o.observedAt == now && o.source in db.sources
      && !Evaluate(db.sources[o.source].policy, db.sources[o.source].streaks, o.outcome).triggered
      && (Evaluate(db.sources[o.source].policy, db.sources[o.source].streaks, o.outcome).recovered ==>
            forall e :: e in db.evidence && db.evidence[e].active ==>
              db.evidence[e].identity != Identity(Native, o.source, "availability"))
    case _ => false
  }

  /** After a step that advances, no window that has run out is open. */
  lemma AdvancingLeavesNoneRunOut(db: Db, step: Step, now: Time)
    requires Linked(db) && Enabled(db, step) && Advances(db, step, now)
    ensures NoneRunOut(Next(db, step), now)
  {
    hide ApplyFacts, Settle, AdvanceDue, NoneRunOut, Evaluate;
    match step
    case Advance(at) => AdvanceCloses(db, now);
    case Observe(s) => SnapshotAdvances(db, s);
    case ObserveNative(o) => NativeAdvances(db, o);
  }

  lemma SnapshotAdvances(db: Db, s: Snapshot)
    requires Linked(db) && ApplySnapshot(db, s).Ok?
    ensures NoneRunOut(ApplySnapshot(db, s).value, s.observedAt)
  {
    hide ApplyFacts, Settle, AdvanceDue, NoneRunOut, Gone, Rearm;
    var pass := ApplyFacts(Pass(db, {}, {}, {}), Prepared(s), s.observedAt).value;
    var gone := Gone(pass.db, s, pass.seen);
    var rearmed := Rearm(ResolveRows(pass.db, gone, s.observedAt), s, pass.seen, s.observedAt);
    AdvanceCloses(Settle(rearmed, pass.impacts + ImpactsTouching(pass.db, gone), pass.incidents + IncidentsTouching(pass.db, gone),
                         s.observedAt), s.observedAt);
  }

  lemma NativeAdvances(db: Db, o: Observation)
    requires Linked(db) && Advances(db, ObserveNative(o), o.observedAt)
    ensures NoneRunOut(Next(db, ObserveNative(o)), o.observedAt)
  {
    hide AdvanceDue, NoneRunOut, Evaluate;
    var decision := Evaluate(db.sources[o.source].policy, db.sources[o.source].streaks, o.outcome);
    var counted := Counted(db, o.source, decision.streaks);
    if decision.recovered {
      AdvanceCloses(RearmIdentity(counted, NativeIdentity(o.source), o.observedAt), o.observedAt);
    } else {
      AdvanceCloses(counted, o.observedAt);
    }
  }

  /**
   * An incident whose window had run out before such a step is closed by it, and resolved if nothing is affected any more,
   * unless a fact of the step joined it in time and its window has moved beyond the clock.
   */
  lemma RunOutIsEnded(db: Db, step: Step, now: Time, i: Id)
    requires Inv(db) && Linked(db) && Enabled(db, step) && Advances(db, step, now)
    requires i in db.incidents && RunOut(db.incidents[i], now)
    ensures var db2 := Next(db, step);
      && i in db2.incidents
      && (EndedAt(db2, i, now) ||
          (step.Observe? && db2.incidents[i].propagation == Open && db2.incidents[i].endsAt > now &&
           db2.incidents[i].endsAt > db.incidents[i].endsAt))
  {
    hide Next, Evolves, Inv, Affects;
    var db2 := Next(db, step);
    AdvancingLeavesNoneRunOut(db, step, now);
    StepEvolves(db, step, now);
    StepInv(db, step);
    EvolvedRow(db, db2, i, now);
    AgreesOn(db2, i);
    if !step.Observe? {
      WindowStays(db, step, now, i);
    }
  }

  lemma EvolvedRow(db: Db, db2: Db, i: Id, now: Time)
    requires Evolves(db, db2, now) && i in db.incidents
    ensures i in db2.incidents && IncidentEvolves(db.incidents[i], db2.incidents[i], now)
  {
  }

  /** In a committed state an incident is resolved exactly if its window is closed and nothing is affected. */
  lemma AgreesOn(db: Db, i: Id)
    requires Inv(db) && i in db.incidents
    ensures db.incidents[i].status == Resolved <==> db.incidents[i].propagation == Closed && !Affects(db, i)
  {
    assert IncidentAgrees(db.impacts, i, db.incidents[i]);
    ActiveMeansAffects(db, i);
  }

  /** Only a snapshot moves the end of a window that has run out. */
  lemma WindowStays(db: Db, step: Step, now: Time, i: Id)
    requires Linked(db) && Enabled(db, step) && Advances(db, step, now) && !step.Observe? && i in db.incidents
    ensures var db2 := Next(db, step); i in db2.incidents && db2.incidents[i].endsAt == db.incidents[i].endsAt
  {
    hide Evaluate;
    match step
    case Advance(at) => EndsStay(db, Due(db, now), now);
    case ObserveNative(o) =>
      var decision := Evaluate(db.sources[o.source].policy, db.sources[o.source].streaks, o.outcome);
      var counted := Counted(db, o.source, decision.streaks);
      var rearmed := RearmIdentity(counted, NativeIdentity(o.source), o.observedAt);
      EndsStay(rearmed, Due(rearmed, now), now);
      EndsStay(counted, Due(counted, now), now);
  }

  lemma EndsStay(db: Db, ns: set<Id>, now: Time)
    ensures var db2 := RecomputeIncidents(db, ns, now);
      db2.incidents.Keys == db.incidents.Keys && forall i :: i in db.incidents ==> db2.incidents[i].endsAt == db.incidents[i].endsAt
  {
  }

  /** In every run: once it has advanced to `now`, every active incident is still in its window or has it closed. */
  lemma RunLeavesNoneRunOut(db: Db, steps: seq<Step>, db2: Db, step: Step, now: Time)
    requires Inv(db) && Reaches(db, steps, db2) && Linked(db2) && Enabled(db2, step) && Advances(db2, step, now)
    ensures var db3 := Next(db2, step);
      forall i :: i in db3.incidents && db3.incidents[i].status == Active ==>
        db3.incidents[i].propagation == Closed || now < db3.incidents[i].endsAt
    ensures var db3 := Next(db2, step);
      forall i :: i in db3.incidents && !Affects(db3, i) && db3.incidents[i].endsAt <= now ==> db3.incidents[i].status == Resolved
  {
    hide Next, Inv, Affects, Advances;
    var db3 := Next(db2, step);
    RunInv(db, steps, db2);
    StepInv(db2, step);
    AdvancingLeavesNoneRunOut(db2, step, now);
    forall i | i in db3.incidents
      ensures !RunOut(db3.incidents[i], now)
      ensures db3.incidents[i].status == Resolved <==> db3.incidents[i].propagation == Closed && !Affects(db3, i)
    {
      AgreesOn(db3, i);
    }
  }
}
