/** The steps of the store's loops: rows handled one at a time, in any order, add up to the specification. */
module IncidentStoreSteps {
  import opened Common
  import opened Trigger
  import opened IncidentModel
  import opened IncidentCycle
  import opened IncidentSnapshot
  import opened IncidentStructure
  import opened IncidentInvariants
  import opened IncidentAggregates
  import opened IncidentAcknowledgement
  import opened IncidentIdentities
  import opened IncidentPlacement
  import opened IncidentTransactions
  import opened IncidentStructureProofs

  // Recomputing rows one at a time, in any order, is recomputing them together.

  lemma RecomputeImpactsStep(db: Db, done: set<Id>, p: Id, now: Time)
    requires p !in done
    ensures RecomputeImpacts(RecomputeImpacts(db, done, now), {p}, now) == RecomputeImpacts(db, done + {p}, now)
  {
    assert RecomputeImpacts(RecomputeImpacts(db, done, now), {p}, now).impacts == RecomputeImpacts(db, done + {p}, now).impacts;
  }

  lemma RecomputeIncidentsStep(db: Db, done: set<Id>, i: Id, now: Time)
    requires i !in done
    ensures RecomputeIncidents(RecomputeIncidents(db, done, now), {i}, now) == RecomputeIncidents(db, done + {i}, now)
  {
    hide Aggregated, WithSync, LiveTargetCount;
    assert RecomputeIncidents(RecomputeIncidents(db, done, now), {i}, now).incidents ==
           RecomputeIncidents(db, done + {i}, now).incidents;
  }

  lemma ResolveRowsStep(db: Db, done: set<Id>, e: Id, now: Time)
    ensures ResolveRows(ResolveRows(db, done, now), {e}, now) == ResolveRows(db, done + {e}, now)
  {
    assert ResolveRows(ResolveRows(db, done, now), {e}, now).evidence == ResolveRows(db, done + {e}, now).evidence;
  }

  function NewlyResolved(before: map<Id, Incident>, after: map<Id, Incident>): set<Id>
  {
    set i | i in before && i in after && before[i].status == Active && after[i].status == Resolved
  }

  lemma NewlyResolvedStep(start: map<Id, Incident>, before: map<Id, Incident>, after: map<Id, Incident>, i: Id)
    requires i in start && before.Keys == start.Keys && start[i] == before[i] && i in after && after == before[i := after[i]]
    ensures |NewlyResolved(start, after)| ==
      |NewlyResolved(start, before)| + if before[i].status == Active && after[i].status == Resolved then 1 else 0
  {
    if before[i].status == Active && after[i].status == Resolved {
      assert NewlyResolved(start, after) == NewlyResolved(start, before) + {i};
    } else {
      assert NewlyResolved(start, after) == NewlyResolved(start, before);
    }
  }

  lemma NothingRecomputed(db: Db, now: Time)
    ensures RecomputeImpacts(db, {}, now) == db && RecomputeIncidents(db, {}, now) == db && ResolveRows(db, {}, now) == db
  {
    assert RecomputeImpacts(db, {}, now).impacts == db.impacts;
    assert RecomputeIncidents(db, {}, now).incidents == db.incidents;
    assert ResolveRows(db, {}, now).evidence == db.evidence;
  }

  lemma PartialShape(db: Db, ps: set<Id>, ns: set<Id>)
    requires Partial(db, ps, ns)
    ensures Shape(db)
  {
  }

  lemma RowPresent(db: Db, e: Id)
    requires Shape(db) && e in db.evidence
    ensures db.evidence[e].impact in db.impacts && db.evidence[e].incident in db.incidents
  {
  }

  lemma TouchingPresent(db: Db, es: set<Id>)
    requires Shape(db)
    ensures ImpactsTouching(db, es) <= db.impacts.Keys && IncidentsTouching(db, es) <= db.incidents.Keys
  {
    forall e | e in es && e in db.evidence
      ensures db.evidence[e].impact in db.impacts && db.evidence[e].incident in db.incidents
    {
      RowPresent(db, e);
    }
  }

  lemma CountedShape(db: Db, source: string, streaks: Streaks)
    requires Inv(db) && source in db.sources
    ensures Shape(Counted(db, source, streaks)) && Linked(Counted(db, source, streaks))
  {
    ShapeLinks(db);
    OutsideShape(db, Counted(db, source, streaks));
  }

  lemma ArchivedShape(db: Db, target: string)
    requires Shape(db) && target in db.targets
    ensures Shape(db.(targets := db.targets[target := Archived]))
  {
  }

  lemma RearmIs(db: Db, s: Snapshot, seen: set<Identity>, now: Time, candidates: set<Id>, evidence: map<Id, Evidence>)
    requires candidates == set e | e in db.evidence && Unarmed(db.evidence[e]) && Observes(s, db.evidence[e])
    requires evidence.Keys == db.evidence.Keys
    requires forall e :: e in evidence && e in candidates && db.evidence[e].identity !in seen ==> evidence[e] == Rearmed(db.evidence[e], now)
    requires forall e :: e in evidence && !(e in candidates && db.evidence[e].identity !in seen) ==> evidence[e] == db.evidence[e]
    ensures evidence == Rearm(db, s, seen, now).evidence
    ensures forall e :: e in evidence ==> (Unarmed(evidence[e]) <==>
      Unarmed(db.evidence[e]) && !(Observes(s, db.evidence[e]) && db.evidence[e].identity !in seen))
    ensures forall e :: e in evidence ==> evidence[e] == db.evidence[e].(rearmedAt := evidence[e].rearmedAt)
    ensures Rearm(db, s, seen, now) == db.(evidence := evidence)
  {
    hide Observes;
    forall e | e in evidence
      ensures evidence[e] == Rearm(db, s, seen, now).evidence[e]
    {
    }
  }

  // ----- Acknowledgement -----

  function RemoteRows(evidence: map<Id, Evidence>, i: Id): set<Id>
  {
    set e | e in evidence && Remote(evidence[e], i)
  }

  function RemoteRowsWith(evidence: map<Id, Evidence>, i: Id, sync: Sync): set<Id>
  {
    set e | e in evidence && Remote(evidence[e], i) && evidence[e].ackSync == sync
  }

  lemma RemoteRowsStep(evidence: map<Id, Evidence>, e: Id, row: Evidence, i: Id)
    requires e !in evidence
    ensures |RemoteRows(evidence[e := row], i)| == |RemoteRows(evidence, i)| + if Remote(row, i) then 1 else 0
  {
    hide Remote;
    if Remote(row, i) {
      assert RemoteRows(evidence[e := row], i) == RemoteRows(evidence, i) + {e};
    } else {
      assert RemoteRows(evidence[e := row], i) == RemoteRows(evidence, i);
    }
  }

  lemma RemoteRowsWithStep(evidence: map<Id, Evidence>, e: Id, row: Evidence, i: Id, sync: Sync)
    requires e !in evidence
    ensures |RemoteRowsWith(evidence[e := row], i, sync)| ==
      |RemoteRowsWith(evidence, i, sync)| + if Remote(row, i) && row.ackSync == sync then 1 else 0
  {
    hide Remote;
    if Remote(row, i) && row.ackSync == sync {
      assert RemoteRowsWith(evidence[e := row], i, sync) == RemoteRowsWith(evidence, i, sync) + {e};
    } else {
      assert RemoteRowsWith(evidence[e := row], i, sync) == RemoteRowsWith(evidence, i, sync);
    }
  }

  /** The status that the active Zabbix rows of an incident call for. */
  ghost predicate Calls(evidence: map<Id, Evidence>, i: Id, sync: Sync)
  {
    match sync
    case NotApplicable => forall e :: e in evidence ==> !Remote(evidence[e], i)
    case SyncFailed => exists e :: e in evidence && Remote(evidence[e], i) && evidence[e].ackSync == SyncFailed
    case Pending =>
      && (exists e :: e in evidence && Remote(evidence[e], i) && evidence[e].ackSync == Pending)
      && (forall e :: e in evidence && Remote(evidence[e], i) ==> evidence[e].ackSync != SyncFailed)
    case Synchronized =>
      && (exists e :: e in evidence && Remote(evidence[e], i))
      && (forall e :: e in evidence && Remote(evidence[e], i) ==> evidence[e].ackSync !in {Pending, SyncFailed})
  }

  lemma CountsDecide(evidence: map<Id, Evidence>, i: Id)
    ensures |RemoteRows(evidence, i)| == 0 <==> forall e :: e in evidence ==> !Remote(evidence[e], i)
    ensures forall sync :: |RemoteRowsWith(evidence, i, sync)| > 0 <==>
      exists e :: e in evidence && Remote(evidence[e], i) && evidence[e].ackSync == sync
  {
    if e :| e in evidence && Remote(evidence[e], i) {
      assert e in RemoteRows(evidence, i);
    }
    forall sync
      ensures |RemoteRowsWith(evidence, i, sync)| > 0 <==> exists e :: e in evidence && Remote(evidence[e], i) && evidence[e].ackSync == sync
    {
      if e :| e in evidence && Remote(evidence[e], i) && evidence[e].ackSync == sync {
        assert e in RemoteRowsWith(evidence, i, sync);
      }
      if |RemoteRowsWith(evidence, i, sync)| > 0 {
        var e :| e in RemoteRowsWith(evidence, i, sync);
      }
    }
  }

  /** Answers about an incident that is not there concern no row. */
  lemma {:induction false} NothingToAnswer(db: Db, i: Id, results: seq<AckResult>)
    requires Linked(db)
    ensures i !in db.incidents ==> RecordResults(db, i, results) == db
    decreases |results|
  {
    if results != [] {
      NothingToAnswer(db, i, results[..|results| - 1]);
    }
  }

  /** The rows an acknowledgement has to ask about. */
  predicate NeedsAnswer(db: Db, i: Id, row: Evidence)
  {
    if Acknowledged(db, i) then row.ackSync in {Pending, SyncFailed} else !row.upstream
  }

  /** Every remote row is synchronized, hence acknowledged upstream, or was asked about and refused. */
  ghost predicate AskedAbout(before: Db, i: Id, evidence: map<Id, Evidence>, accepts: Id -> bool)
  {
    && evidence.Keys == before.evidence.Keys
    && forall e :: e in evidence && Remote(evidence[e], i) ==>
      if NeedsAnswer(before, i, before.evidence[e]) && !accepts(e) then evidence[e].ackSync == SyncFailed
      else evidence[e].ackSync == Synchronized && evidence[e].upstream
  }

  /** The rows `plan` of a planned acknowledgement have been answered. */
  ghost predicate Recorded(evidence: map<Id, Evidence>, evidence2: map<Id, Evidence>, i: Id, plan: set<Id>,
      accepts: Id -> bool)
  {
    && evidence2.Keys == evidence.Keys
    && forall e :: e in evidence ==>
      if e in plan && Remote(evidence[e], i) then AnsweredAs(evidence[e], evidence2[e], accepts(e))
      else evidence2[e] == evidence[e]
  }

  lemma Asked(db: Db, i: Id, now: Time, plan: set<Id>, evidence2: map<Id, Evidence>, accepts: Id -> bool)
    requires AckLocal(db, i, now).Ok? && Inv(AckLocal(db, i, now).value) && plan == Plan(AckLocal(db, i, now).value.evidence, i)
    requires Recorded(AckLocal(db, i, now).value.evidence, evidence2, i, plan, accepts)
      || (plan == {} && evidence2 == AckLocal(db, i, now).value.evidence)
    ensures AskedAbout(db, i, evidence2, accepts)
  {
    hide AckLocal, Inv, Plan;
    var db1 := AckLocal(db, i, now).value;
    PlannedRows(db, i, now);
    InvRowsAck(db1);
    UnplannedRows(db1, i);
    forall e | e in evidence2 && Remote(evidence2[e], i)
      ensures Remote(db1.evidence[e], i)
      ensures e in plan ==> AnsweredAs(db1.evidence[e], evidence2[e], accepts(e))
      ensures e !in plan ==> evidence2[e] == db1.evidence[e]
    {
    }
  }

  lemma InvRowsAck(db: Db)
    requires Inv(db)
    ensures RowsAck(db)
  {
  }

  lemma CompleteAckRows(db: Db, i: Id, results: seq<AckResult>)
    requires i in db.incidents
    ensures CompleteAck(db, i, results).evidence == RecordResults(db, i, results).evidence
    ensures Acknowledged(db, i) ==> Acknowledged(CompleteAck(db, i, results), i)
  {
  }

  lemma AnswersSnoc(results: seq<AckResult>, plan: set<Id>, todo: set<Id>, e: Id, accepts: Id -> bool)
    requires results != [] && results[|results| - 1] == AckResult(e, accepts(e)) && e in todo && todo <= plan
    requires Answers(results[..|results| - 1], plan - todo, accepts)
    ensures Answers(results, plan - (todo - {e}), accepts)
  {
    var init := results[..|results| - 1];
    forall x | x in plan - (todo - {e})
      ensures exists k :: 0 <= k < |results| && results[k].evidence == x
    {
      if x == e {
        assert results[|results| - 1].evidence == x;
      } else {
        assert x in plan - todo;
        var k :| 0 <= k < |init| && init[k].evidence == x;
        assert results[k].evidence == x;
      }
    }
    assert forall k :: 0 <= k < |init| ==> results[k] == init[k];
  }

  /** The results answer each planned row once, as the server does. */
  predicate Answers(results: seq<AckResult>, plan: set<Id>, accepts: Id -> bool)
  {
    && (forall k :: 0 <= k < |results| ==> results[k].evidence in plan && results[k].succeeded == accepts(results[k].evidence))
    && (forall e :: e in plan ==> exists k :: 0 <= k < |results| && results[k].evidence == e)
  }

  lemma PlannedRows(db: Db, i: Id, now: Time)
    requires AckLocal(db, i, now).Ok?
    ensures var db2 := AckLocal(db, i, now).value;
      && Acknowledged(db2, i) && db2.evidence.Keys == db.evidence.Keys
      && forall e :: e in db.evidence ==>
        && Remote(db2.evidence[e], i) == Remote(db.evidence[e], i)
        && (Remote(db.evidence[e], i) ==> (e in Plan(db2.evidence, i) <==> NeedsAnswer(db, i, db.evidence[e])))
  {
  }

  /** Remote rows of an acknowledged incident that are not planned are synchronized already. */
  lemma UnplannedRows(db: Db, i: Id)
    requires RowsAck(db) && Acknowledged(db, i)
    ensures forall e :: e in db.evidence && Remote(db.evidence[e], i) && e !in Plan(db.evidence, i) ==>
      db.evidence[e].ackSync == Synchronized && db.evidence[e].upstream
  {
    forall e | e in db.evidence && Remote(db.evidence[e], i)
      ensures RowAck(db.evidence[e], true)
    {
      assert RowAck(db.evidence[e], Acknowledged(db, db.evidence[e].incident));
    }
  }

  /** A recorded answer: what the server said about row `row`, whatever was recorded before. */
  predicate AnsweredAs(row: Evidence, row2: Evidence, accepted: bool)
  {
    && row2 == row.(ackSync := row2.ackSync, upstream := row2.upstream)
    && row2.ackSync == (if accepted then Synchronized else SyncFailed) && (accepted ==> row2.upstream)
  }

  function AnsweredRows(results: seq<AckResult>): set<Id>
  {
    set k | 0 <= k < |results| :: results[k].evidence
  }

  lemma {:induction false} RecordResultsAre(db: Db, i: Id, results: seq<AckResult>, plan: set<Id>, accepts: Id -> bool)
    requires Answers(results, plan, accepts)
    ensures Recorded(db.evidence, RecordResults(db, i, results).evidence, i, plan, accepts)
    decreases |results|
  {
    hide RecordResult, Recorded, Remote;
    if results == [] {
      NothingRecorded(db.evidence, i, plan, accepts);
    } else {
      var init := results[..|results| - 1];
      var before := AnsweredRows(init);
      AnswersInit(results, plan, before, accepts);
      RecordResultsAre(db, i, init, before, accepts);
      RecordedStep(db.evidence, RecordResults(db, i, init), i, results[|results| - 1], before, accepts);
    }
  }

  lemma NothingRecorded(evidence: map<Id, Evidence>, i: Id, plan: set<Id>, accepts: Id -> bool)
    requires Answers([], plan, accepts)
    ensures Recorded(evidence, evidence, i, plan, accepts)
  {
    assert plan == {};
  }

  lemma AnswersInit(results: seq<AckResult>, plan: set<Id>, before: set<Id>, accepts: Id -> bool)
    requires results != [] && Answers(results, plan, accepts)
    requires before == AnsweredRows(results[..|results| - 1])
    ensures Answers(results[..|results| - 1], before, accepts)
    ensures plan == before + {results[|results| - 1].evidence} && results[|results| - 1].succeeded == accepts(results[|results| - 1].evidence)
  {
    var init := results[..|results| - 1];
    forall e | e in plan
      ensures e in before || e == results[|results| - 1].evidence
    {
      var k :| 0 <= k < |results| && results[k].evidence == e;
      assert k < |init| ==> init[k].evidence == e;
    }
    forall k | 0 <= k < |init|
      ensures init[k].evidence in plan && init[k].succeeded == accepts(init[k].evidence)
    {
      assert init[k] == results[k];
    }
  }

  lemma RecordedStep(evidence: map<Id, Evidence>, db: Db, i: Id, r: AckResult, before: set<Id>, accepts: Id -> bool)
    requires Recorded(evidence, db.evidence, i, before, accepts) && r.succeeded == accepts(r.evidence)
    ensures Recorded(evidence, RecordResult(db, i, r).evidence, i, before + {r.evidence}, accepts)
  {
    var evidence2 := RecordResult(db, i, r).evidence;
    forall e | e in evidence
      ensures if e in before + {r.evidence} && Remote(evidence[e], i) then AnsweredAs(evidence[e], evidence2[e], accepts(e))
              else evidence2[e] == evidence[e]
    {
      assert db.evidence[e] == evidence[e] || AnsweredAs(evidence[e], db.evidence[e], accepts(e));
      if e != r.evidence {
        assert evidence2[e] == db.evidence[e];
      }
    }
  }

  // ----- Orders of a loop -----

  lemma ListsExists(ps: set<Id>)
    ensures exists order :: Lists(order, ps)
  {
    if ps == {} {
      assert Lists([], ps);
    } else {
      var p :| p in ps;
      ListsExists(ps - {p});
      var order :| Lists(order, ps - {p});
      assert Lists([p] + order, ps);
    }
  }

  lemma ListsSnoc(order: seq<Id>, all: set<Id>, todo: set<Id>, s: Id)
    requires todo <= all && Lists(order, all - todo) && s in todo
    ensures Lists(order + [s], all - (todo - {s}))
  {
  }

  lemma {:induction false} MergeAllSnoc(db: Db, order: seq<Id>, s: Id, primary: string, now: Time)
    ensures var db2 := MergeAll(db, order, primary, now);
      MergeAll(db, order + [s], primary, now) == if s in db2.impacts then MergeOne(db2, s, primary, now) else db2
    decreases |order|
  {
    if order == [] {
      assert [s][1..] == [];
    } else {
      assert (order + [s])[1..] == order[1..] + [s];
      MergeAllSnoc(if order[0] in db.impacts then MergeOne(db, order[0], primary, now) else db, order[1..], s, primary, now);
    }
  }

  lemma ImpactOnSame(impacts: map<Id, Impact>, impacts2: map<Id, Impact>, i: Id, t: string)
    requires forall p :: p in impacts && impacts[p].incident == i ==> p in impacts2 && impacts2[p] == impacts[p]
    requires forall p :: p in impacts2 && impacts2[p].incident == i ==> p in impacts && impacts2[p] == impacts[p]
    ensures ImpactOn(impacts2, i, t) == ImpactOn(impacts, i, t)
  {
    assert (map p | p in impacts2 && impacts2[p].incident == i && impacts2[p].target == t :: 0) ==
           (map p | p in impacts && impacts[p].incident == i && impacts[p].target == t :: 0);
  }

  /** Merging an impact leaves the impacts of other incidents alone. */
  lemma MergeOneOthers(db: Db, s: Id, primary: string, now: Time)
    requires s in db.impacts
    ensures var db2 := MergeOne(db, s, primary, now);
      && (forall p :: p in db.impacts && db.impacts[p].incident != db.impacts[s].incident ==>
            p in db2.impacts && db2.impacts[p] == db.impacts[p])
      && (forall j :: j != db.impacts[s].incident ==> ImpactOn(db2.impacts, j, primary) == ImpactOn(db.impacts, j, primary))
  {
    var db2 := MergeOne(db, s, primary, now);
    forall j | j != db.impacts[s].incident
      ensures ImpactOn(db2.impacts, j, primary) == ImpactOn(db.impacts, j, primary)
    {
      ImpactOnSame(db.impacts, db2.impacts, j, primary);
    }
  }

  ghost predicate Paired(impacts: map<Id, Impact>, ps: set<Id>, pairs: map<Id, Option<Id>>, primary: string)
  {
    forall s :: s in ps && s in impacts ==> s in pairs && pairs[s] == ImpactOn(impacts, impacts[s].incident, primary)
  }

  /** The impacts still to be merged, at most one in each incident. */
  ghost predicate Merging(impacts: map<Id, Impact>, todo: set<Id>, secondary: string)
  {
    && (forall s :: s in todo ==> s in impacts && impacts[s].target == secondary)
    && (forall s, p :: s in todo && p in todo && s != p ==> impacts[s].incident != impacts[p].incident)
  }

  lemma ListsNothing(all: set<Id>)
    ensures Lists([], all - all)
  {
  }

  lemma MergingStarts(impacts: map<Id, Impact>, todo: set<Id>, primary: string, secondary: string)
    requires UniqueImpact(impacts) && todo == ImpactsOn(impacts, secondary)
    ensures Merging(impacts, todo, secondary)
  {
  }

  lemma PairedRow(impacts: map<Id, Impact>, todo: set<Id>, pairs: map<Id, Option<Id>>, primary: string,
      secondary: string, s: Id)
    requires Paired(impacts, todo, pairs, primary) && Merging(impacts, todo, secondary) && s in todo && primary != secondary
    ensures s in impacts && s in pairs && pairs[s] == ImpactOn(impacts, impacts[s].incident, primary) && impacts[s].target != primary
  {
  }

  lemma MergingStep(db: Db, todo: set<Id>, pairs: map<Id, Option<Id>>, s: Id, primary: string, secondary: string,
      now: Time)
    requires Paired(db.impacts, todo, pairs, primary) && Merging(db.impacts, todo, secondary) && s in todo
    ensures var impacts2 := MergeOne(db, s, primary, now).impacts;
      Paired(impacts2, todo - {s}, pairs, primary) && Merging(impacts2, todo - {s}, secondary)
  {
    hide MergeOne, ImpactOn;
    MergeOneOthers(db, s, primary, now);
    var impacts2 := MergeOne(db, s, primary, now).impacts;
    forall p | p in todo - {s}
      ensures p in impacts2 && impacts2[p] == db.impacts[p] && pairs[p] == ImpactOn(impacts2, impacts2[p].incident, primary)
    {
      assert db.impacts[p].incident != db.impacts[s].incident;
    }
  }

  lemma {:induction false} ReassignAllSnoc(db: Db, order: seq<Id>, s: Id, t: string, source: string,
      binding: string, now: Time)
    ensures var db2 := ReassignAll(db, order, t, source, binding, now);
      ReassignAll(db, order + [s], t, source, binding, now) ==
      if s in db2.impacts then ReassignOne(db2, s, t, source, binding, now) else db2
    decreases |order|
  {
    if order == [] {
      assert [s][1..] == [];
    } else {
      assert (order + [s])[1..] == order[1..] + [s];
      ReassignAllSnoc(
        if order[0] in db.impacts then ReassignOne(db, order[0], t, source, binding, now) else db,
        order[1..], s, t, source, binding, now);
    }
  }

  /** The rows a source has on an impact: those it had before the move, unless the impact is on the destination already. */
  ghost predicate Chosen(db: Db, s: Id, es: set<Id>, t: string, source: string, binding: string)
  {
    && s in db.impacts && es <= EvidenceOf(db.evidence, s)
    && (db.impacts[s].target != t ==> es == Selected(db.evidence, s, source, binding))
  }

  /** The impacts still to be visited, with the rows chosen on them before the first move. */
  ghost predicate Moving(db: Db, todo: set<Id>, chosen: map<Id, set<Id>>, t: string, source: string,
      binding: string, ns: set<Id>)
  {
    forall s :: s in todo ==> s in chosen && Chosen(db, s, chosen[s], t, source, binding) && db.impacts[s].incident in ns
  }

  /** Moving the rows of one impact does not disturb what was chosen on another. */
  lemma ReassignOneOthers(db: Db, s: Id, q: Id, es: set<Id>, t: string, source: string, binding: string, now: Time)
    requires Shape(db) && s in db.impacts && q != s && Chosen(db, q, es, t, source, binding)
    ensures var db2 := ReassignOne(db, s, t, source, binding, now);
      Chosen(db2, q, es, t, source, binding) && db2.impacts[q].incident == db.impacts[q].incident
  {
    hide ImpactRow, IncidentRow, EvidenceRow;
    var db2 := ReassignOne(db, s, t, source, binding, now);
    var d := ReassignOneEvidence(db, s, t, source, binding, now);
    ReassignOneKeeps(db, s, q, t, source, binding, now);
    ChosenRows(db, db2, s, q, d, es, t, source, binding);
  }

  lemma ReassignOneKeeps(db: Db, s: Id, q: Id, t: string, source: string, binding: string, now: Time)
    requires Shape(db) && s in db.impacts && q != s && q in db.impacts
    ensures var db2 := ReassignOne(db, s, t, source, binding, now);
      && q in db2.impacts && db2.impacts[q].incident == db.impacts[q].incident && db2.impacts[q].target == db.impacts[q].target
  {
    hide ImpactRow, IncidentRow, EvidenceRow, DerivedImpact, SplitImpact;
    DerivedPlace(db, q, now);
  }

  lemma DerivedPlace(db: Db, q: Id, now: Time)
    requires q in db.impacts
    ensures forall evidence: map<Id, Evidence> :: DerivedImpact(evidence, q, db.impacts[q], now).incident == db.impacts[q].incident
    ensures forall evidence: map<Id, Evidence> :: DerivedImpact(evidence, q, db.impacts[q], now).target == db.impacts[q].target
  {
  }

  lemma ChosenRows(db: Db, db2: Db, s: Id, q: Id, d: Id, es: set<Id>, t: string, source: string, binding: string)
    requires Shape(db) && s in db.impacts && q != s && Chosen(db, q, es, t, source, binding)
    requires q in db2.impacts && db2.impacts[q].target == db.impacts[q].target
    requires db2.evidence == Relocate(db.evidence, Selected(db.evidence, s, source, binding), d, t) || db2.evidence == db.evidence
    requires d in {s, db.next} || (d in db.impacts && db.impacts[d].target == t)
    ensures Chosen(db2, q, es, t, source, binding)
  {
    hide ImpactRow, IncidentRow, EvidenceRow, FromSource;
    assert q < db.next;
    forall e | e in db.evidence && db.evidence[e].impact == q
      ensures db2.evidence[e] == db.evidence[e]
    {
    }
    forall e | e in db2.evidence && db2.evidence[e].impact == q && db.impacts[q].target != t
      ensures db.evidence[e].impact == q
    {
    }
  }

  lemma MovingStep(db: Db, todo: set<Id>, chosen: map<Id, set<Id>>, s: Id, t: string, source: string,
      binding: string, ns: set<Id>, now: Time)
    requires Shape(db) && Moving(db, todo, chosen, t, source, binding, ns) && s in todo
    ensures Moving(ReassignOne(db, s, t, source, binding, now), todo - {s}, chosen, t, source, binding, ns)
  {
    hide ReassignOne, Shape, Chosen;
    assert Chosen(db, s, chosen[s], t, source, binding);
    ChosenPresent(db, s, chosen[s], t, source, binding);
    forall q | q in todo - {s}
      ensures Chosen(ReassignOne(db, s, t, source, binding, now), q, chosen[q], t, source, binding)
      ensures q in ReassignOne(db, s, t, source, binding, now).impacts
      ensures ReassignOne(db, s, t, source, binding, now).impacts[q].incident in ns
    {
      ReassignOneOthers(db, s, q, chosen[q], t, source, binding, now);
      ChosenPresent(ReassignOne(db, s, t, source, binding, now), q, chosen[q], t, source, binding);
    }
  }

  lemma ChosenPresent(db: Db, s: Id, es: set<Id>, t: string, source: string, binding: string)
    requires Chosen(db, s, es, t, source, binding)
    ensures s in db.impacts
  {
  }

  lemma MovingStarts(db: Db, chosen: map<Id, set<Id>>, t: string, source: string, binding: string)
    requires Shape(db)
    requires chosen == map s | s in ImpactsFrom(db.evidence, source, binding) :: Selected(db.evidence, s, source, binding)
    ensures Moving(db, ImpactsFrom(db.evidence, source, binding), chosen, t, source, binding, IncidentsFrom(db.evidence, source, binding))
  {
    hide ImpactRow, IncidentRow, EvidenceRow;
    forall s | s in ImpactsFrom(db.evidence, source, binding)
      ensures s in db.impacts && db.impacts[s].incident in IncidentsFrom(db.evidence, source, binding)
    {
      var e :| e in db.evidence && FromSource(db.evidence[e], source, binding) && db.evidence[e].impact == s;
      assert db.evidence[e].incident in IncidentsFrom(db.evidence, source, binding);
    }
  }

  lemma MovingRow(db: Db, todo: set<Id>, chosen: map<Id, set<Id>>, s: Id, t: string, source: string,
      binding: string, ns: set<Id>)
    requires Moving(db, todo, chosen, t, source, binding, ns) && s in todo
    ensures s in chosen && Chosen(db, s, chosen[s], t, source, binding) && s in db.impacts && db.impacts[s].incident in ns
  {
  }

  lemma PartialPlaced(db: Db, ns: set<Id>)
    requires Partial(db, {}, ns)
    ensures Shape(db) && UniqueImpact(db.impacts)
  {
  }

  lemma IncidentsFromPresent(db: Db, source: string, binding: string)
    requires Shape(db)
    ensures IncidentsFrom(db.evidence, source, binding) <= db.incidents.Keys
  {
    ShapeLinks(db);
  }

  /** Either the impact is on the destination already, or the rows chosen are those of the source. */
  lemma ChosenCase(db: Db, s: Id, es: set<Id>, t: string, source: string, binding: string)
    requires UniqueImpact(db.impacts) && Chosen(db, s, es, t, source, binding)
    ensures es <= EvidenceOf(db.evidence, s)
    ensures ImpactOn(db.impacts, db.impacts[s].incident, t) != Some(s) ==> es == Selected(db.evidence, s, source, binding)
  {
  }

  lemma AlreadyThere(db: Db, s: Id, es: set<Id>, t: string)
    requires Shape(db) && s in db.impacts && db.impacts[s].target == t && es <= EvidenceOf(db.evidence, s)
    ensures Relocate(db.evidence, es, s, t) == db.evidence
  {
    hide ImpactRow, IncidentRow, EvidenceRow;
    forall e | e in db.evidence
      ensures Relocate(db.evidence, es, s, t)[e] == db.evidence[e]
    {
      assert db.impacts[db.evidence[e].impact].target == db.evidence[e].target;
    }
  }

  lemma FreshId(db: Db, s: Id)
    requires Shape(db) && s in db.impacts
    ensures s != db.next
  {
  }

  lemma LeftBehind(evidence: map<Id, Evidence>, es: set<Id>, s: Id, d: Id, t: string)
    requires es <= EvidenceOf(evidence, s) && s != d
    ensures EvidenceOf(Relocate(evidence, es, d, t), s) == EvidenceOf(evidence, s) - es
  {
  }

  /** A part of a set with as many elements is the whole set. */
  lemma SameSize(part: set<Id>, whole: set<Id>)
    requires part <= whole
    ensures |part| == |whole| <==> part == whole
    ensures whole - part == {} <==> part == whole
  {
    assert forall x :: x in whole && x !in part ==> x in whole - part;
    if part != whole {
      assert whole == part + (whole - part);
      assert |whole - part| > 0;
    }
  }

  lemma PartialPlaces(db: Db)
    requires Inv(db)
    ensures UniqueImpact(db.impacts) && IncidentsWithin(db)
  {
  }

  ghost predicate IncidentsWithin(db: Db)
  {
    forall p :: p in db.impacts ==> db.impacts[p].incident in db.incidents
  }
}
