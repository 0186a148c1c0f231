/** Runs in which a snapshot reports each target and nature once: unique impacts, exact resumption counts. */
module IncidentUniqueness {
  import opened Common
  import opened Trigger
  import opened IncidentModel
  import opened IncidentCycle
  import opened IncidentSnapshot
  import opened IncidentStructure
  import opened IncidentInvariants
  import opened IncidentAggregates
  import opened IncidentIdentities
  import opened IncidentAcknowledgement
  import opened IncidentTransactions
  import opened IncidentStructureProofs
  import opened IncidentRuns
  import opened IncidentEvolution
  import opened IncidentHistory
  import opened IncidentSequence
  import opened IncidentRivals

  type KeyOf = (string, string, string) -> string

  // ----- A pass over the facts -----

  ghost predicate CoherentFacts(facts: seq<Fact>, keyOf: KeyOf)
  {
    forall k :: 0 <= k < |facts| ==> CoherentNature(facts[k].nature, keyOf)
  }

  lemma OrderlyTrans(a: Db, b: Db, c: Db, keyOf: KeyOf)
    requires Orderly(a, b, keyOf) && Orderly(b, c, keyOf)
    ensures Orderly(a, c, keyOf)
  {
  }

  /** Some fact of the pass, when its turn comes, collides with an incident the pass has resumed. */
  ghost predicate PassCollides(pass: Pass, facts: seq<Fact>, now: Time)
    requires Linked(pass.db)
    decreases |facts|
  {
    facts != [] &&
    ((facts[0].identity !in pass.seen && FactCollides(pass.db, facts[0], now)) ||
     (ApplyOne(pass, facts[0], now).Ok? && PassCollides(ApplyOne(pass, facts[0], now).value, facts[1..], now)))
  }

  /** The spots reported once fact `f` is applied. */
  function SpotsAfter(pass: Pass, f: Fact, done: set<Spot>): set<Spot>
  {
    if f.identity in pass.seen then done else done + {FactSpot(f)}
  }

  lemma PassShape(pass: Pass)
    requires PassOk(pass)
    ensures Shape(pass.db)
  {
  }

  lemma ApplyOneFlow(pass: Pass, f: Fact, done: set<Spot>, keyOf: KeyOf, now: Time)
    requires Shape(pass.db) && Linked(pass.db) && Flow(pass.db, done, pass.seen) && Coherent(pass.db, keyOf)
    requires CoherentNature(f.nature, keyOf) && (f.identity !in pass.seen ==> !FactCollides(pass.db, f, now))
    requires ApplyOne(pass, f, now).Ok?
    ensures var mid := ApplyOne(pass, f, now).value;
      && mid.seen == pass.seen + {f.identity}
      && Flow(mid.db, SpotsAfter(pass, f, done), mid.seen) && Orderly(pass.db, mid.db, keyOf)
  {
    if f.identity !in pass.seen {
      ApplyFactFlow(pass.db, f, done, pass.seen, keyOf, now);
    } else {
      assert pass.seen + {f.identity} == pass.seen;
    }
  }

  lemma {:induction false} ApplyFactsFlow(pass: Pass, facts: seq<Fact>, done: set<Spot>, keyOf: KeyOf,
      now: Time) returns (done2: set<Spot>)
    requires PassOk(pass) && Linked(pass.db) && Flow(pass.db, done, pass.seen) && Coherent(pass.db, keyOf)
    requires CoherentFacts(facts, keyOf) && !PassCollides(pass, facts, now) && ApplyFacts(pass, facts, now).Ok?
    ensures var out := ApplyFacts(pass, facts, now).value;
      Flow(out.db, done2, out.seen) && Orderly(pass.db, out.db, keyOf)
    decreases |facts|
  {
    hide Flow, FactCollides, ApplyFact, Shape, OnePerNature;
    done2 := done;
    if facts != [] {
      PassShape(pass);
      var mid := ApplyOne(pass, facts[0], now).value;
      assert CoherentNature(facts[0].nature, keyOf);
      ApplyOneOk(pass, facts[0], now);
      ApplyOneFlow(pass, facts[0], done, keyOf, now);
      done2 := ApplyFactsFlow(mid, facts[1..], SpotsAfter(pass, facts[0], done), keyOf, now);
      OrderlyTrans(pass.db, mid.db, ApplyFacts(mid, facts[1..], now).value.db, keyOf);
    }
  }

  // ----- Facts on separate spots do not collide -----

  /** Facts of different identities sit on different spots. */
  ghost predicate Separate(facts: seq<Fact>)
  {
    forall k, l :: 0 <= k < l < |facts| && FactSpot(facts[k]) == FactSpot(facts[l]) ==> facts[k].identity == facts[l].identity
  }

  /** The facts still to come, unless already seen, sit on spots not reported yet. */
  ghost predicate Ahead(facts: seq<Fact>, done: set<Spot>, seen: set<Identity>)
  {
    forall k :: 0 <= k < |facts| && facts[k].identity !in seen ==> FactSpot(facts[k]) !in done
  }

  lemma AheadStep(facts: seq<Fact>, done: set<Spot>, pass: Pass)
    requires facts != [] && Separate(facts) && Ahead(facts, done, pass.seen)
    ensures Separate(facts[1..]) && Ahead(facts[1..], SpotsAfter(pass, facts[0], done), pass.seen + {facts[0].identity})
  {
    var rest := facts[1..];
    assert forall k :: 0 <= k < |rest| ==> rest[k] == facts[k + 1];
  }

  lemma {:induction false} SeparateFits(pass: Pass, facts: seq<Fact>, done: set<Spot>, keyOf: KeyOf, now: Time)
    requires PassOk(pass) && Linked(pass.db) && Flow(pass.db, done, pass.seen) && Coherent(pass.db, keyOf)
    requires Separate(facts) && CoherentFacts(facts, keyOf) && Ahead(facts, done, pass.seen)
    ensures !PassCollides(pass, facts, now)
    decreases |facts|
  {
    hide ApplyFact, FactCollides, Flow;
    if facts != [] {
      if facts[0].identity !in pass.seen {
        FreshSpotFits(pass.db, facts[0], done, pass.seen, now);
      }
      if ApplyOne(pass, facts[0], now).Ok? {
        var mid := ApplyOne(pass, facts[0], now).value;
        assert CoherentNature(facts[0].nature, keyOf);
        ApplyOneOk(pass, facts[0], now);
        ApplyOneFlow(pass, facts[0], done, keyOf, now);
        AheadStep(facts, done, pass);
        SeparateFits(mid, facts[1..], SpotsAfter(pass, facts[0], done), keyOf, now);
      }
    }
  }

  // ----- The end of a transaction -----

  lemma RelabelledDraining(db: Db, db2: Db, skip: set<Id>, done: set<Spot>, seen: set<Identity>)
    requires Draining(db, skip, done, seen) && Relabelled(db, db2)
    ensures Draining(db2, skip, done, seen) && Shrinks(db, db2)
  {
    forall e | e in db2.evidence
      ensures RelabelledRow(db.evidence[e], db2.evidence[e])
      ensures forall p :: Sustains(db.evidence[e], p) == Sustains(db2.evidence[e], p)
    {
      assert RelabelledRow(db.evidence[e], db2.evidence[e]);
    }
    RelabelledSustained(db, db2, skip);
  }

  lemma RelabelledSustained(db: Db, db2: Db, skip: set<Id>)
    requires Sustained(db, skip) && Relabelled(db, db2)
    ensures Sustained(db2, skip)
  {
    forall e | e in db2.evidence
      ensures forall p :: Sustains(db.evidence[e], p) == Sustains(db2.evidence[e], p)
    {
      assert RelabelledRow(db.evidence[e], db2.evidence[e]);
    }
  }

  /** Natures and balance after a transaction that only closes. */
  ghost predicate Keeps(db: Db, db2: Db, keyOf: KeyOf)
  {
    AllBalanced(db2) && Orderly(db, db2, keyOf)
  }

  lemma SettledKeeps(db: Db, drained: Db, ps: set<Id>, ns: set<Id>, skip: set<Id>, done: set<Spot>,
      seen: set<Identity>, keyOf: KeyOf, now: Time)
    requires Draining(drained, skip, done, seen) && skip <= ps && Shape(drained) && Coherent(db, keyOf)
    requires Shrinks(db, drained) && drained.incidents == db.incidents
    ensures var db2 := Settle(drained, ps, ns, now);
      Keeps(db, db2, keyOf) && Flow(db2, done, seen) && Shape(db2)
  {
    var db2 := Settle(drained, ps, ns, now);
    SettleFlow(drained, ps, ns, skip, done, seen, now);
    SettleShape(drained, ps, ns, now);
    ShrinksTrans(db, drained, db2);
    SettleNatures(drained, ps, ns, now);
    SameSpotsOrderly(db, db2, keyOf);
  }

  lemma AdvanceKeeps(db: Db, done: set<Spot>, seen: set<Identity>, keyOf: KeyOf, now: Time)
    requires Flow(db, done, seen) && Shape(db) && Coherent(db, keyOf)
    ensures Keeps(db, AdvanceDue(db, now), keyOf)
  {
    RecomputeIncidentsFlow(db, Due(db, now), done, seen, now);
    RecomputeNatures(db, Due(db, now), now);
    SameSpotsOrderly(db, AdvanceDue(db, now), keyOf);
  }

  /** Closing what is gone and re-arming drains the impacts touched. */
  lemma GoneDrains(pass: Pass, s: Snapshot, gone: set<Id>, done: set<Spot>)
    requires Shape(pass.db) && Flow(pass.db, done, pass.seen) && gone == Gone(pass.db, s, pass.seen)
    ensures var rearmed := Rearm(ResolveRows(pass.db, gone, s.observedAt), s, pass.seen, s.observedAt);
      && Draining(rearmed, ImpactsTouching(pass.db, gone), done, pass.seen) && Shape(rearmed)
      && Shrinks(pass.db, rearmed) && rearmed.incidents == pass.db.incidents
  {
    hide Flow, Draining, Shape;
    var db, now := pass.db, s.observedAt;
    var closed := ResolveRows(db, gone, now);
    var rearmed := Rearm(closed, s, pass.seen, now);
    DeactivatedDrains(db, closed, gone, done, pass.seen);
    RearmRelabels(closed, s, pass.seen, now);
    RelabelledDraining(closed, rearmed, ImpactsTouching(db, gone), done, pass.seen);
    ResolveRowsShape(db, gone, now);
    RelabelledShape(closed, rearmed);
    SameCyclesShrink(db, rearmed);
  }

  lemma FinishKeeps(pass: Pass, s: Snapshot, done: set<Spot>, keyOf: KeyOf)
    requires Shape(pass.db) && Flow(pass.db, done, pass.seen) && Coherent(pass.db, keyOf)
    ensures Keeps(pass.db, Finish(pass, s), keyOf)
  {
    hide ResolveRows, Rearm, Settle, AdvanceDue, Shape;
    var db, now := pass.db, s.observedAt;
    var gone := Gone(db, s, pass.seen);
    var ps, ns := pass.impacts + ImpactsTouching(db, gone), pass.incidents + IncidentsTouching(db, gone);
    var rearmed := Rearm(ResolveRows(db, gone, now), s, pass.seen, now);
    GoneDrains(pass, s, gone, done);
    SettledKeeps(db, rearmed, ps, ns, ImpactsTouching(db, gone), done, pass.seen, keyOf, now);
    var settled := Settle(rearmed, ps, ns, now);
    AdvanceKeeps(settled, done, pass.seen, keyOf, now);
    OrderlyTrans(db, settled, Finish(pass, s), keyOf);
  }

  ghost predicate SnapshotCollides(db: Db, s: Snapshot)
    requires Linked(db)
  {
    PassCollides(Pass(db, {}, {}, {}), Prepared(s), s.observedAt)
  }

  /** A snapshot that reports each spot under one identity has no collision. */
  lemma SeparateSnapshotFits(db: Db, s: Snapshot, keyOf: KeyOf)
    requires Inv(db) && Linked(db) && AllBalanced(db) && Coherent(db, keyOf)
    requires Separate(Prepared(s)) && CoherentFacts(Prepared(s), keyOf)
    ensures !SnapshotCollides(db, s)
  {
    FlowStarts(db);
    SeparateFits(Pass(db, {}, {}, {}), Prepared(s), {}, keyOf, s.observedAt);
  }

  lemma SnapshotKeeps(db: Db, s: Snapshot, keyOf: KeyOf)
    requires Inv(db) && Linked(db) && AllBalanced(db) && Coherent(db, keyOf) && ApplySnapshot(db, s).Ok?
    requires CoherentFacts(Prepared(s), keyOf) && !SnapshotCollides(db, s)
    ensures Keeps(db, ApplySnapshot(db, s).value, keyOf)
  {
    var pass := Pass(db, {}, {}, {});
    FlowStarts(db);
    ApplyFactsOk(pass, Prepared(s), s.observedAt);
    var done := ApplyFactsFlow(pass, Prepared(s), {}, keyOf, s.observedAt);
    var out := ApplyFacts(pass, Prepared(s), s.observedAt).value;
    FinishKeeps(out, s, done, keyOf);
    OrderlyTrans(db, out.db, Finish(out, s), keyOf);
  }

  /** Where a transaction starts: clean rows and balanced incidents. */
  ghost predicate Calm(db: Db, keyOf: KeyOf)
  {
    Shape(db) && Flow(db, {}, {}) && Coherent(db, keyOf)
  }

  lemma CloseKeeps(db: Db, es: set<Id>, keyOf: KeyOf, now: Time)
    requires Calm(db, keyOf) && forall e :: e in es ==> e in db.evidence && db.evidence[e].active
    ensures Keeps(db, Close(db, es, now), keyOf)
  {
    var closed := ResolveRows(db, es, now);
    DeactivatedDrains(db, closed, es, {}, {});
    ResolveRowsShape(db, es, now);
    SettledKeeps(db, closed, ImpactsTouching(db, es), IncidentsTouching(db, es), ImpactsTouching(db, es), {}, {}, keyOf, now);
  }

  lemma StillKeeps(db: Db, db2: Db, keyOf: KeyOf)
    requires AllBalanced(db) && Coherent(db, keyOf) && Still(db, db2)
    ensures Keeps(db, db2, keyOf)
  {
    forall i | i in db2.incidents
      ensures SameCycle(db.incidents[i], db2.incidents[i]) && Balanced(db2.impacts, i, db2.incidents[i])
    {
      assert Balanced(db.impacts, i, db.incidents[i]) && SameCycle(db.incidents[i], db2.incidents[i]);
    }
    SameCyclesShrink(db, db2);
    SameSpotsOrderly(db, db2, keyOf);
  }

  lemma RelabelledKeeps(db: Db, db2: Db, keyOf: KeyOf)
    requires AllBalanced(db) && Coherent(db, keyOf) && Relabelled(db, db2)
    ensures Keeps(db, db2, keyOf)
  {
    SameCyclesShrink(db, db2);
    SameSpotsOrderly(db, db2, keyOf);
  }

  // ----- The other transactions -----

  lemma CloseOneKeeps(db: Db, e: Id, keyOf: KeyOf, now: Time)
    requires Calm(db, keyOf) && e in db.evidence && db.evidence[e].active
    ensures Keeps(db, Close(db, {e}, now), keyOf)
  {
    CloseKeeps(db, {e}, keyOf, now);
  }

  lemma CalmKeeps(db: Db, keyOf: KeyOf)
    requires Calm(db, keyOf)
    ensures Keeps(db, db, keyOf)
  {
  }

  lemma ReportKeeps(db: Db, id: Identity, keyOf: KeyOf, now: Time)
    requires Calm(db, keyOf)
    ensures Keeps(db, ResolveEvidence(db, id, now), keyOf)
  {
    match ActiveRow(db.evidence, id)
    case None => CalmKeeps(db, keyOf);
    case Some(e) => CloseOneKeeps(db, e, keyOf, now);
  }

  lemma RelabelledCalm(db: Db, db2: Db, keyOf: KeyOf)
    requires Calm(db, keyOf) && Relabelled(db, db2)
    ensures Calm(db2, keyOf)
  {
    FlowDrains(db, {}, {});
    RelabelledDraining(db, db2, {}, {}, {});
    RelabelledShape(db, db2);
  }

  lemma RecoverKeeps(db: Db, source: string, keyOf: KeyOf, now: Time)
    requires Calm(db, keyOf)
    ensures Keeps(db, RecoverNative(db, source, now), keyOf)
  {
    match ActiveRow(db.evidence, NativeIdentity(source))
    case Some(e) => CloseOneKeeps(db, e, keyOf, now);
    case None => RearmedKeeps(db, source, keyOf, now);
  }

  lemma RearmedKeeps(db: Db, source: string, keyOf: KeyOf, now: Time)
    requires Calm(db, keyOf)
    ensures Keeps(db, AdvanceDue(RearmIdentity(db, NativeIdentity(source), now), now), keyOf)
  {
    var db1 := RearmIdentity(db, NativeIdentity(source), now);
    RearmIdentityRelabels(db, NativeIdentity(source), now);
    RelabelledCalm(db, db1, keyOf);
    RelabelledKeeps(db, db1, keyOf);
    AdvanceKeeps(db1, {}, {}, keyOf, now);
    OrderlyTrans(db, db1, AdvanceDue(db1, now), keyOf);
  }

  lemma TriggeredKeeps(db: Db, f: Fact, keyOf: KeyOf, now: Time)
    requires Inv(db) && Linked(db) && AllBalanced(db) && Coherent(db, keyOf) && CoherentNature(f.nature, keyOf)
    ensures match ApplyFact(db, f, now)
      case Touched(next, i, p) => Keeps(db, Settle(next, {p}, {i}, now), keyOf)
      case Ignored(next) => Keeps(db, next, keyOf)
      case _ => true
  {
    FlowStarts(db);
    FreshSpotFits(db, f, {}, {}, now);
    ApplyFactFlow(db, f, {}, {}, keyOf, now);
    ApplyFactSteady(db, f, {}, {}, now);
    match ApplyFact(db, f, now)
    case Touched(next, i, p) =>
      FlowDrains(next, {} + {FactSpot(f)}, {} + {f.identity});
      SettledKeeps(next, next, {p}, {i}, {}, {} + {FactSpot(f)}, {} + {f.identity}, keyOf, now);
      OrderlyTrans(db, next, Settle(next, {p}, {i}, now), keyOf);
    case _ =>
  }

  lemma FlowDrains(db: Db, done: set<Spot>, seen: set<Identity>)
    requires Flow(db, done, seen)
    ensures Draining(db, {}, done, seen)
  {
  }

  lemma NativeEffectKeeps(db: Db, o: Observation, severity: Severity, decision: Decision, keyOf: KeyOf)
    requires Inv(db) && Linked(db) && AllBalanced(db) && Coherent(db, keyOf)
    requires CoherentNature(CanonicalNature(AVAILABILITY), keyOf) && NativeEffect(db, o, severity, decision).Ok?
    ensures Keeps(db, NativeEffect(db, o, severity, decision).value, keyOf)
  {
    if decision.triggered {
      TriggeredKeeps(db, NativeFact(o, severity), keyOf, o.observedAt);
    } else if decision.recovered {
      FlowStarts(db);
      RecoverKeeps(db, o.source, keyOf, o.observedAt);
    } else {
      FlowStarts(db);
      AdvanceKeeps(db, {}, {}, keyOf, o.observedAt);
    }
  }

  lemma NativeKeeps(db: Db, o: Observation, keyOf: KeyOf)
    requires Inv(db) && Linked(db) && AllBalanced(db) && Coherent(db, keyOf) && ApplyNative(db, o).Ok?
    requires CoherentNature(CanonicalNature(AVAILABILITY), keyOf)
    ensures Keeps(db, ApplyNative(db, o).value, keyOf)
  {
    var source := db.sources[o.source];
    var decision := Evaluate(source.policy, source.streaks, o.outcome);
    var counted := Counted(db, o.source, decision.streaks);
    OutsidePartial(db, counted, {}, {});
    OutsideKeeps(db, counted, keyOf);
    NativeEffectKeeps(counted, o, source.severity, decision, keyOf);
    OrderlyTrans(db, counted, ApplyNative(db, o).value, keyOf);
  }

  lemma OutsideKeeps(db: Db, db2: Db, keyOf: KeyOf)
    requires AllBalanced(db) && Coherent(db, keyOf)
    requires db2.impacts == db.impacts && db2.incidents == db.incidents && db2.evidence == db.evidence
    ensures Keeps(db, db2, keyOf)
  {
    StillKeeps(db, db2, keyOf);
  }

  lemma InvalidatedDrains(db: Db, e: Id, row: Evidence)
    requires Flow(db, {}, {}) && Shape(db) && e in db.evidence && db.evidence[e].active
    requires !row.active && row.impact == db.evidence[e].impact
    ensures Draining(db.(evidence := db.evidence[e := row]), {row.impact}, {}, {})
  {
    hide Flow, Shape;
    var db1 := db.(evidence := db.evidence[e := row]);
    assert Deactivated(db, db1, {e});
    DeactivatedDrains(db, db1, {e}, {}, {});
    assert ImpactsTouching(db, {e}) == {row.impact};
  }

  lemma InvalidateKeeps(db: Db, i: Id, e: Id, keyOf: KeyOf, now: Time)
    requires Calm(db, keyOf) && Invalidate(db, i, e, now).Ok?
    ensures Keeps(db, Invalidate(db, i, e, now).value, keyOf)
  {
    var row := db.evidence[e].(active := false, resolvedAt := Some(now), invalidatedAt := Some(now));
    var db1 := db.(evidence := db.evidence[e := row]);
    InvalidatedDrains(db, e, row);
    InvalidatedShape(db, e, row, now);
    SameCyclesShrink(db, db1);
    SettledKeeps(db, db1, {row.impact}, {i}, {row.impact}, {}, {}, keyOf, now);
  }

  lemma AckKeeps(db: Db, i: Id, keyOf: KeyOf, now: Time)
    requires AckOk(db, {}) && AllBalanced(db) && Coherent(db, keyOf) && AckLocal(db, i, now).Ok?
    ensures Keeps(db, AckLocal(db, i, now).value, keyOf)
  {
    AckLocalOnly(db, i, now);
    AckOnlyStill(db, AckLocal(db, i, now).value);
    StillKeeps(db, AckLocal(db, i, now).value, keyOf);
  }

  lemma AnswerKeeps(db: Db, i: Id, results: seq<AckResult>, keyOf: KeyOf)
    requires AllBalanced(db) && Coherent(db, keyOf) && i in db.incidents
    ensures Keeps(db, CompleteAck(db, i, results), keyOf)
  {
    RecordResultsAnswered(db, i, results);
    AnsweredStandings(db, RecordResults(db, i, results), i);
    StillKeeps(db, CompleteAck(db, i, results), keyOf);
  }

  lemma ArchivedRows(db: Db, t: string, es: set<Id>, now: Time)
    ensures var closed := ResolveRows(db, es, now);
      && ResolveRows(db.(targets := db.targets[t := Archived]), es, now) == closed.(targets := db.targets[t := Archived])
      && Deactivated(db, closed, es) && closed == db.(evidence := closed.evidence)
  {
  }

  lemma ArchivedDrains(db: Db, t: string, now: Time)
    requires Shape(db) && Flow(db, {}, {}) && OnLive(db.targets, db.evidence) && t in db.targets
    ensures var es := ActiveOn(db.evidence, t);
      var closed := ResolveRows(db.(targets := db.targets[t := Archived]), es, now);
      Draining(closed, ImpactsTouching(db, es), {}, {}) && Shape(closed) && Shrinks(db, closed)
  {
    hide Flow, Shape, Draining, ResolveRows;
    var es := ActiveOn(db.evidence, t);
    var closed := ResolveRows(db.(targets := db.targets[t := Archived]), es, now);
    ArchivedRows(db, t, es, now);
    DeactivatedDrains(db, ResolveRows(db, es, now), es, {}, {});
    ResolveRowsShape(db, es, now);
    SameTablesDraining(ResolveRows(db, es, now), closed, ImpactsTouching(db, es));
    ArchivedOutside(db, t, now);
    OutsideShape(ResolveRows(db, es, now), closed);
    SameCyclesShrink(db, closed);
  }

  lemma ArchiveKeeps(db: Db, t: string, keyOf: KeyOf, now: Time)
    requires Calm(db, keyOf) && OnLive(db.targets, db.evidence) && Archive(db, t, now).Ok?
    ensures Keeps(db, Archive(db, t, now).value, keyOf)
  {
    var es := ActiveOn(db.evidence, t);
    var db1 := db.(targets := db.targets[t := Archived]);
    ArchivedDrains(db, t, now);
    SettledKeeps(db, ResolveRows(db1, es, now), ImpactsTouching(db1, es), IncidentsTouching(db1, es),
                 ImpactsTouching(db, es), {}, {}, keyOf, now);
  }

  lemma SameTablesDraining(db: Db, db2: Db, skip: set<Id>)
    requires Draining(db, skip, {}, {})
    requires db2.impacts == db.impacts && db2.incidents == db.incidents && db2.evidence == db.evidence
    ensures Draining(db2, skip, {}, {})
  {
    assert forall p :: OpenAt(db2, p) == OpenAt(db, p);
  }

  lemma RemoveKeeps(db: Db, owner: Owner, keyOf: KeyOf, now: Time)
    requires Calm(db, keyOf)
    ensures Keeps(db, RemoveOwner(db, owner, now), keyOf)
  {
    var es := ActiveOwned(db.evidence, owner);
    var closed := Close(db, es, now);
    CloseKeeps(db, es, keyOf, now);
    DisownRelabels(closed, owner);
    RelabelledKeeps(closed, Disown(closed, owner), keyOf);
    OrderlyTrans(db, closed, Disown(closed, owner), keyOf);
  }

  // ----- Structural corrections keep the balance -----

  ghost predicate LiveIn(evidence: map<Id, Evidence>, i: Id)
  {
    exists e :: e in evidence && evidence[e].incident == i && Sustains(evidence[e], evidence[e].impact)
  }

  lemma OpenIffLive(db: Db, i: Id, ns: set<Id>)
    requires Shape(db) && Clean(db, {}, ns)
    ensures ActiveOf(db.impacts, i) == {} <==> !LiveIn(db.evidence, i)
  {
    if e :| e in db.evidence && db.evidence[e].incident == i && Sustains(db.evidence[e], db.evidence[e].impact) {
      var p := db.evidence[e].impact;
      assert ImpactAgrees(db.evidence, p, db.impacts[p]);
      assert p in ActiveOf(db.impacts, i);
    }
    if p :| p in ActiveOf(db.impacts, i) {
      assert ImpactAgrees(db.evidence, p, db.impacts[p]);
      var e :| e in db.evidence && Sustains(db.evidence[e], p);
      assert db.evidence[e].incident == i;
    }
  }

  lemma ConservedLive(evidence: map<Id, Evidence>, evidence2: map<Id, Evidence>, i: Id)
    requires Conserved(evidence, evidence2)
    ensures LiveIn(evidence, i) <==> LiveIn(evidence2, i)
  {
    forall e | e in evidence
      ensures Sustains(evidence[e], evidence[e].impact) == Sustains(evidence2[e], evidence2[e].impact)
      ensures evidence2[e].incident == evidence[e].incident
    {
      assert evidence2[e] == evidence[e].(impact := evidence2[e].impact, target := evidence2[e].target);
    }
  }

  lemma ConservedBalanced(db: Db, db2: Db, ns: set<Id>, keyOf: KeyOf, now: Time)
    requires Inv(db) && AllBalanced(db) && Coherent(db, keyOf) && Partial(db2, {}, ns)
    requires Conserved(db.evidence, db2.evidence) && db2.incidents == db.incidents
    ensures var db3 := RecomputeIncidents(db2, ns, now); AllBalanced(db3) && Coherent(db3, keyOf)
  {
    forall i | i in db.incidents
      ensures Balanced(db2.impacts, i, db2.incidents[i])
    {
      assert Balanced(db.impacts, i, db.incidents[i]);
      OpenIffLive(db, i, {});
      OpenIffLive(db2, i, ns);
      ConservedLive(db.evidence, db2.evidence, i);
    }
    RecomputedBalanced(db2, ns, now);
    RecomputeNatures(db2, ns, now);
  }

  lemma RecomputedBalanced(db: Db, ns: set<Id>, now: Time)
    requires Shape(db) && AllBalanced(db)
    ensures AllBalanced(RecomputeIncidents(db, ns, now))
  {
    var db2 := RecomputeIncidents(db, ns, now);
    forall i | i in db.incidents
      ensures Balanced(db2.impacts, i, db2.incidents[i])
    {
      assert Balanced(db.impacts, i, db.incidents[i]) && IncidentRow(db.incidents[i]);
      AggregatedBalanced(db.impacts, LiveTargetCount(db.targets), i, db.incidents[i], now);
    }
  }

  lemma StructureBalanced(db: Db, step: Step, keyOf: KeyOf)
    requires Inv(db) && Linked(db) && Enabled(db, step) && (step.Merge? || step.Reassign?) && Attempt(db, step).Ok?
    requires AllBalanced(db) && Coherent(db, keyOf)
    ensures AllBalanced(Next(db, step)) && Coherent(Next(db, step), keyOf)
  {
    match step
    case Merge(primary, secondary, order, now) =>
      var ns := IncidentsOn(db.impacts, secondary);
      MergeStart(db, secondary, order, ns);
      MergeAllOk(db, order, primary, secondary, ns, now);
      ConservedBalanced(db, MergeAll(db, order, primary, now), ns, keyOf, now);
    case Reassign(t, source, binding, order, now) =>
      var ns := IncidentsFrom(db.evidence, source, binding);
      ReassignStart(db, t, source, binding, order);
      PartialWider(db, ns);
      ReassignAllOk(db, order, t, source, binding, ns, now);
      ConservedBalanced(db, ReassignAll(db, order, t, source, binding, now), ns, keyOf, now);
  }

  // ----- Runs -----

  /** Snapshots report each target and nature once, with coherent nature keys. */
  ghost predicate Tame(step: Step, keyOf: KeyOf)
  {
    match step
    case Observe(s) => Separate(Prepared(s)) && CoherentFacts(Prepared(s), keyOf)
    case ObserveNative(_) => CoherentNature(CanonicalNature(AVAILABILITY), keyOf)
    case _ => true
  }

  ghost predicate Regular(db: Db, keyOf: KeyOf)
  {
    Inv(db) && AllBalanced(db) && Coherent(db, keyOf)
  }

  lemma ObservingKeeps(db: Db, step: Step, keyOf: KeyOf)
    requires Regular(db, keyOf) && Linked(db) && Enabled(db, step) && Tame(step, keyOf) && Attempt(db, step).Ok?
    requires step.Observe? || step.ObserveNative? || step.Report? || step.Advance? || step.RuleOut?
    ensures Keeps(db, Next(db, step), keyOf)
  {
    FlowStarts(db);
    match step
    case Observe(s) =>
      SeparateSnapshotFits(db, s, keyOf);
      SnapshotKeeps(db, s, keyOf);
    case ObserveNative(o) => NativeKeeps(db, o, keyOf);
    case Report(id, now) => ReportKeeps(db, id, keyOf, now);
    case Advance(now) => AdvanceKeeps(db, {}, {}, keyOf, now);
    case RuleOut(i, e, now) => InvalidateKeeps(db, i, e, keyOf, now);
  }

  lemma ManagingKeeps(db: Db, step: Step, keyOf: KeyOf)
    requires Regular(db, keyOf) && Linked(db) && Enabled(db, step) && Attempt(db, step).Ok?
    requires step.Acknowledge? || step.Answer? || step.ArchiveTarget? || step.Remove?
    ensures Keeps(db, Next(db, step), keyOf)
  {
    FlowStarts(db);
    match step
    case Acknowledge(i, now) => AckKeeps(db, i, keyOf, now);
    case Answer(i, results) => AnswerKeeps(db, i, results, keyOf);
    case ArchiveTarget(t, now) => ArchiveKeeps(db, t, keyOf, now);
    case Remove(owner, now) => RemoveKeeps(db, owner, keyOf, now);
  }

  /** A step that merges or moves nothing onto a spot taken by another incident. */
  ghost predicate Clear(db: Db, step: Step)
    requires Linked(db) && Enabled(db, step)
  {
    Attempt(db, step).Ok? ==>
      match step
      case Merge(primary, secondary, _, _) => MergeClear(db, primary, secondary)
      case Reassign(t, source, binding, _, _) => MoveClear(db, t, source, binding)
      case _ => true
  }

  lemma StructureKeeps(db: Db, step: Step)
    requires Inv(db) && Linked(db) && Enabled(db, step) && (step.Merge? || step.Reassign?) && Attempt(db, step).Ok?
    requires OnePerNature(db)
    ensures OnePerNature(Next(db, step)) <==> Clear(db, step)
  {
    hide OnePerNature, MergeClear, MoveClear, Inv;
    match step
    case Merge(primary, secondary, order, now) => MergeKeepsExactly(db, primary, secondary, order, now);
    case Reassign(t, source, binding, order, now) => MoveKeepsExactly(db, t, source, binding, order, now);
  }

  /** One tame step: resumptions stay balanced, and impacts unique exactly if the step is clear. */
  lemma StepKeeps(db: Db, step: Step, keyOf: KeyOf)
    requires Regular(db, keyOf) && Linked(db) && Enabled(db, step) && Tame(step, keyOf)
    ensures Regular(Next(db, step), keyOf)
    ensures OnePerNature(db) ==> (OnePerNature(Next(db, step)) <==> Clear(db, step))
  {
    hide OnePerNature, MergeClear, MoveClear;
    StepInv(db, step);
    if Attempt(db, step).Ok? {
      if step.Merge? || step.Reassign? {
        StructureBalanced(db, step, keyOf);
        if OnePerNature(db) {
          StructureKeeps(db, step);
        }
      } else if step.Observe? || step.ObserveNative? || step.Report? || step.Advance? || step.RuleOut? {
        ObservingKeeps(db, step, keyOf);
      } else if step.Acknowledge? || step.Answer? || step.ArchiveTarget? || step.Remove? {
        ManagingKeeps(db, step, keyOf);
      } else {
        OutsideKeeps(db, Next(db, step), keyOf);
      }
    }
  }

  /** Every step of the run is clear when its turn comes. */
  ghost predicate AlwaysClear(db: Db, steps: seq<Step>)
    decreases |steps|
  {
    steps == [] ||
    (Linked(db) && Enabled(db, steps[0]) && Clear(db, steps[0]) && AlwaysClear(Next(db, steps[0]), steps[1..]))
  }

  /** Every state of the run has one active impact per target and nature. */
  ghost predicate AlwaysUnique(db: Db, steps: seq<Step>)
    decreases |steps|
  {
    OnePerNature(db) &&
    (steps == [] || (Linked(db) && Enabled(db, steps[0]) && AlwaysUnique(Next(db, steps[0]), steps[1..])))
  }

  /**
   * Every run of tame steps: each resolution but the current one has its resumption; impacts are unique all along exactly
   * if every merge and every move of the run is clear.
   */
  lemma {:induction false} RunKeeps(db: Db, steps: seq<Step>, db2: Db, keyOf: KeyOf)
    requires Regular(db, keyOf) && Reaches(db, steps, db2)
    requires forall k :: 0 <= k < |steps| ==> Tame(steps[k], keyOf)
    ensures Regular(db2, keyOf)
    ensures OnePerNature(db) ==> (AlwaysUnique(db, steps) <==> AlwaysClear(db, steps))
    ensures AlwaysUnique(db, steps) ==> OnePerNature(db2)
    decreases |steps|
  {
    hide OnePerNature, Clear, Regular, Next, Tame;
    if steps != [] {
      StepKeeps(db, steps[0], keyOf);
      RunKeeps(Next(db, steps[0]), steps[1..], db2, keyOf);
    }
  }

  /** No target is merged and no source moved. */
  predicate Plain(steps: seq<Step>)
  {
    forall k :: 0 <= k < |steps| ==> !steps[k].Merge? && !steps[k].Reassign?
  }

  lemma {:induction false} PlainIsClear(db: Db, steps: seq<Step>, db2: Db)
    requires Reaches(db, steps, db2) && Plain(steps)
    ensures AlwaysClear(db, steps)
    decreases |steps|
  {
    hide Next;
    if steps != [] {
      assert forall k :: 0 <= k < |steps[1..]| ==> steps[1..][k] == steps[k + 1];
      PlainIsClear(Next(db, steps[0]), steps[1..], db2);
    }
  }

  /** At a committed state the balance is plain: one more resolution than resumptions while resolved, as many otherwise. */
  lemma CommittedBalance(db: Db, i: Id)
    requires Inv(db) && AllBalanced(db) && i in db.incidents
    ensures db.incidents[i].resolutions == db.incidents[i].resumptions + if db.incidents[i].status == Resolved then 1 else 0
  {
    assert Balanced(db.impacts, i, db.incidents[i]);
    assert IncidentAgrees(db.impacts, i, db.incidents[i]);
  }

  // ----- The natures the adapters build -----

  /** The key of a nature, given which connectors are Zabbix servers. */
  function NatureKey(zabbix: set<string>, scope: string, namespace: string, fingerprint: string): string
  {
    if scope == "connector" && namespace in zabbix then "zabbix:" + namespace + ":" + fingerprint else fingerprint
  }

  /** Canonical natures, prefixed keys for Zabbix, the fingerprint itself for every other connector. */
  predicate BuiltByAdapter(zabbix: set<string>, n: Nature)
  {
    n == CanonicalNature(n.fingerprint) ||
    n == ConnectorNature(n.namespace,
      if n.namespace in zabbix then "zabbix:" + n.namespace + ":" + n.fingerprint else n.fingerprint, n.fingerprint)
  }

  lemma AdaptersAreCoherent(zabbix: set<string>, n: Nature)
    requires BuiltByAdapter(zabbix, n)
    ensures CoherentNature(n, (scope, namespace, fingerprint) => NatureKey(zabbix, scope, namespace, fingerprint))
  {
    assert "canonical"[0] == 'c' && |"canonical"| == 9 && |"connector"| == 9 && "canonical"[1] == 'a' && "connector"[1] == 'o';
  }
}
