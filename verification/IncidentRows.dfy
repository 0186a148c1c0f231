/** What each transaction does to the rows of its tables, column by column. */
module IncidentRows {
  import opened Common
  import opened Trigger
  import opened IncidentModel
  import opened IncidentCycle
  import opened IncidentSnapshot
  import opened IncidentStructure
  import opened IncidentInvariants
  import opened IncidentAggregates
  import opened IncidentIdentities
  import opened IncidentAcknowledgement
  import opened IncidentTransactions
  import opened IncidentStructureProofs
  import opened IncidentRuns
  import opened IncidentSequence

  // ----- Aggregates -----

  /** An impact that loses its last live evidence resolves at `now`; one that has some is active again. */
  lemma RecomputedImpactRow(db: Db, p: Id, now: Time)
    requires p in db.impacts
    ensures var row, row2 := db.impacts[p], RecomputeImpacts(db, {p}, now).impacts[p];
      && row2 == row.(status := row2.status, severity := row2.severity, resolvedAt := row2.resolvedAt)
      && (row2.status == Active <==> exists e :: e in db.evidence && KeepsAlive(db.evidence[e], p))
      && (row2.status == Resolved ==> row2.severity == row.severity)
      && (row2.status == Active ==>
            && (exists e :: e in db.evidence && KeepsAlive(db.evidence[e], p) && db.evidence[e].severity == row2.severity)
            && forall e :: e in db.evidence && KeepsAlive(db.evidence[e], p) ==> db.evidence[e].severity <= row2.severity)
      && (row.status == Active && row2.status == Resolved ==> row2.resolvedAt == Some(now))
      && (row.status == Resolved && row2.status == Active ==> row2.resolvedAt.None?)
      && (row2.status == row.status && row2.severity == row.severity ==> row2 == row)
  {
    DerivedStatus(db.evidence, p, db.impacts[p], now);
    assert forall e :: e in db.evidence ==> (Sustains(db.evidence[e], p) <==> KeepsAlive(db.evidence[e], p));
  }

  /** While an incident has active impacts it is as severe as the worst of them, and keeps its severity when it has none. */
  lemma RecomputedSeverity(db: Db, i: Id, now: Time)
    requires i in db.incidents
    ensures var row, row2 := db.incidents[i], RecomputeIncidents(db, {i}, now).incidents[i];
      && ((forall p :: p in db.impacts && db.impacts[p].incident == i ==> db.impacts[p].status == Resolved) ==> row2.severity == row.severity)
      && (forall p :: p in db.impacts && db.impacts[p].incident == i && db.impacts[p].status == Active ==>
            db.impacts[p].severity <= row2.severity)
      && ((exists p :: p in db.impacts && db.impacts[p].incident == i && db.impacts[p].status == Active) ==>
            exists p :: p in db.impacts && db.impacts[p].incident == i && db.impacts[p].status == Active && db.impacts[p].severity == row2.severity)
  {
    hide WithSync, Aggregated, LiveTargetCount;
    var severities := ActiveSeverities(db.impacts, i);
    AggregatedSeverity(db.evidence, db.impacts, LiveTargetCount(db.targets), i, db.incidents[i], now);
    if severities != {} {
      TopIsGreatest(severities);
    }
    assert forall p :: p in db.impacts && db.impacts[p].incident == i && db.impacts[p].status == Active ==> db.impacts[p].severity in severities;
  }

  lemma AggregatedSeverity(evidence: map<Id, Evidence>, impacts: map<Id, Impact>, live: int, i: Id, row: Incident, now: Time)
    ensures var s := ActiveSeverities(impacts, i);
      WithSync(evidence, i, Aggregated(impacts, live, i, row, now)).severity == if s == {} then row.severity else Top(s)
  {
    hide ActiveOf, ImpactsOf, ActiveSeverities, DerivedSync, Top;
  }

  /** What recomputing may change of an incident with `active` of `total` impacts active, among `live` live targets. */
  predicate Recounted(row: Incident, row2: Incident, active: int, total: int, live: int, now: Time)
  {
    && row2.activeCount == active && row2.impactCount == total
    && row2.maxAffected == (if active > row.maxAffected then active else row.maxAffected)
    // extended: twenty targets at once, or five and a fifth of all that are live
    && (row2.extended <==> row.extended || active >= 20 || (active >= 5 && live > 0 && 5 * active >= live))
    && (row2.propagation == Closed <==> row.propagation == Closed || row.endsAt <= now)
    && (row2.status == Resolved <==> row2.propagation == Closed && active == 0)
    && (row.propagation == Open && row2.propagation == Closed ==> row2.closedAt == Some(now))
    && row2.resolutions == row.resolutions + (if row.status == Active && row2.status == Resolved then 1 else 0)
    && (row.status == Active && row2.status == Resolved ==> row2.resolvedAt == Some(now))
    && (row.status == Resolved && row2.status == Active ==> row2.resolvedAt.None?)
    && (row.propagation == Closed ==> row2.closedAt == row.closedAt)
    && (row.status == Resolved && row2.status == Resolved ==> row2.resolvedAt == row.resolvedAt)
    && row2.nature == row.nature && row2.openedAt == row.openedAt && row2.lastImpactAt == row.lastImpactAt
    && row2.window == row.window && row2.endsAt == row.endsAt && row2.acknowledgedAt == row.acknowledgedAt
    && row2.resumptions == row.resumptions && row2.resumedAt == row.resumedAt
  }

  lemma AggregatedRecounts(evidence: map<Id, Evidence>, impacts: map<Id, Impact>, live: int, i: Id, row: Incident, now: Time)
    ensures Recounted(row, WithSync(evidence, i, Aggregated(impacts, live, i, row, now)), |ActiveOf(impacts, i)|,
                      |ImpactsOf(impacts, i)|, live, now)
  {
    hide ActiveOf, ImpactsOf, ActiveSeverities, DerivedSync;
  }

  /** An incident is recomputed from the impacts it has, the active ones among them and the live targets. */
  lemma RecomputedIncidentRow(db: Db, i: Id, now: Time)
    requires i in db.incidents
    ensures Recounted(db.incidents[i], RecomputeIncidents(db, {i}, now).incidents[i],
      |set p | p in db.impacts && db.impacts[p].incident == i && db.impacts[p].status == Active|,
      |set p | p in db.impacts && db.impacts[p].incident == i|, |set t | t in db.targets && db.targets[t] == Live|, now)
  {
    hide Aggregated, Recounted;
    assert ActiveOf(db.impacts, i) == set p | p in db.impacts && db.impacts[p].incident == i && db.impacts[p].status == Active;
    assert ImpactsOf(db.impacts, i) == set p | p in db.impacts && db.impacts[p].incident == i;
    AggregatedRecounts(db.evidence, db.impacts, LiveTargetCount(db.targets), i, db.incidents[i], now);
  }

  // ----- Acknowledgement -----

  /** Active evidence of incident `i` that a Zabbix server knows. */
  predicate OnServer(row: Evidence, i: Id)
  {
    row.incident == i && row.active && row.identity.origin == Zabbix
  }

  lemma PlanRows(evidence: map<Id, Evidence>, i: Id, e: Id)
    ensures e in Plan(evidence, i) <==>
      e in evidence && OnServer(evidence[e], i) && (evidence[e].ackSync == Pending || evidence[e].ackSync == SyncFailed)
  {
  }

  /**
   * A local acknowledgement: refused for an unknown or a resolved incident; the second one changes nothing; the first one
   * marks the incident and each row on a server, settled where the server already knows, waiting elsewhere.
   */
  lemma AckLocalRows(db: Db, i: Id, now: Time)
    ensures var r := AckLocal(db, i, now);
      && (r == Err(NotFound) <==> i !in db.incidents) && (r == Err(Conflict) <==> i in db.incidents && db.incidents[i].status == Resolved)
      && (i in db.incidents && db.incidents[i].status == Active ==>
            && r.Ok? && r.value == db.(incidents := r.value.incidents, evidence := r.value.evidence)
            && r.value.incidents.Keys == db.incidents.Keys && r.value.evidence.Keys == db.evidence.Keys
            && (forall j :: j in db.incidents && j != i ==> r.value.incidents[j] == db.incidents[j])
            && (db.incidents[i].acknowledgedAt.Some? ==> r.value == db)
            && (db.incidents[i].acknowledgedAt.None? ==>
                  && r.value.incidents[i] == db.incidents[i].(acknowledgedAt := Some(now), ackSync := r.value.incidents[i].ackSync)
                  && (r.value.incidents[i].ackSync == Pending <==> exists e :: e in db.evidence && OnServer(db.evidence[e], i))
                  && r.value.incidents[i].ackSync in {Pending, NotApplicable}
                  && forall e :: e in db.evidence ==>
                    if OnServer(db.evidence[e], i) then
                      r.value.evidence[e] == db.evidence[e].(ackSync := if db.evidence[e].upstream then Synchronized else Pending)
                    else r.value.evidence[e] == db.evidence[e]))
  {
    assert forall e :: e in db.evidence ==> (OnServer(db.evidence[e], i) <==> Remote(db.evidence[e], i));
  }

  /** The last answer about evidence `e` is `results[k]`. */
  predicate LastAnswer(results: seq<AckResult>, e: Id, k: nat)
  {
    k < |results| && results[k].evidence == e && forall l :: k < l < |results| ==> results[l].evidence != e
  }

  /** An answer counts for a row still on the server: the last one settles it, and a success is remembered. */
  ghost predicate Answered(row: Evidence, row2: Evidence, i: Id, results: seq<AckResult>, e: Id)
  {
    && row2 == row.(ackSync := row2.ackSync, upstream := row2.upstream)
    && (!OnServer(row, i) || (forall k :: 0 <= k < |results| ==> results[k].evidence != e) ==> row2 == row)
    && (OnServer(row, i) ==>
          && (forall k: nat :: LastAnswer(results, e, k) ==> row2.ackSync == if results[k].succeeded then Synchronized else SyncFailed)
          && (row2.upstream <==> row.upstream || exists k :: 0 <= k < |results| && results[k].evidence == e && results[k].succeeded))
  }

  lemma AnsweredSnoc(row: Evidence, row1: Evidence, row2: Evidence, i: Id, results: seq<AckResult>, last: AckResult, e: Id)
    requires Answered(row, row1, i, results, e)
    requires row2 == if last.evidence == e && OnServer(row, i) then
        row1.(ackSync := if last.succeeded then Synchronized else SyncFailed, upstream := row1.upstream || last.succeeded)
      else row1
    ensures Answered(row, row2, i, results + [last], e)
  {
    var longer := results + [last];
    assert forall k :: 0 <= k < |results| ==> longer[k] == results[k];
    assert longer[|results|] == last;
    forall k: nat | LastAnswer(longer, e, k)
      ensures k == |results| || LastAnswer(results, e, k)
    {
    }
  }

  lemma {:induction false} AnsweredRow(db: Db, i: Id, results: seq<AckResult>, e: Id)
    requires e in db.evidence
    ensures var db2 := RecordResults(db, i, results);
      db2 == db.(evidence := db2.evidence) && db2.evidence.Keys == db.evidence.Keys && Answered(db.evidence[e], db2.evidence[e], i, results, e)
  {
    hide Answered, LastAnswer;
    if results == [] {
      NotAnswered(db.evidence[e], i, e);
    } else {
      var init, last := results[..|results| - 1], results[|results| - 1];
      AnsweredRow(db, i, init, e);
      assert results == init + [last];
      KeepsServer(db.evidence[e], RecordResults(db, i, init).evidence[e], i, init, e);
      AnsweredSnoc(db.evidence[e], RecordResults(db, i, init).evidence[e], RecordResults(db, i, results).evidence[e], i, init, last, e);
    }
  }

  lemma NotAnswered(row: Evidence, i: Id, e: Id)
    ensures Answered(row, row, i, [], e)
  {
  }

  lemma KeepsServer(row: Evidence, row2: Evidence, i: Id, results: seq<AckResult>, e: Id)
    requires Answered(row, row2, i, results, e)
    ensures OnServer(row2, i) == OnServer(row, i)
  {
  }

  /** An acknowledged incident says what its rows on servers call for. */
  lemma AnsweredIncident(db: Db, i: Id, results: seq<AckResult>)
    requires i in db.incidents
    ensures var db2 := CompleteAck(db, i, results);
      && db2.evidence == RecordResults(db, i, results).evidence && db2.incidents.Keys == db.incidents.Keys
      && (forall j :: j in db.incidents && j != i ==> db2.incidents[j] == db.incidents[j])
      && db2.incidents[i] == db.incidents[i].(ackSync := db2.incidents[i].ackSync)
      && (db.incidents[i].acknowledgedAt.None? ==> db2.incidents[i] == db.incidents[i])
      && (db.incidents[i].acknowledgedAt.Some? ==>
            var some := exists e :: e in db2.evidence && OnServer(db2.evidence[e], i);
            var failed := exists e :: e in db2.evidence && OnServer(db2.evidence[e], i) && db2.evidence[e].ackSync == SyncFailed;
            var waits := exists e :: e in db2.evidence && OnServer(db2.evidence[e], i) && db2.evidence[e].ackSync == Pending;
            db2.incidents[i].ackSync == if !some then NotApplicable else if failed then SyncFailed else if waits then Pending else Synchronized)
  {
    SettledSync(RecordResults(db, i, results).evidence, i);
  }

  lemma SettledSync(evidence: map<Id, Evidence>, i: Id)
    ensures
      var some := exists e :: e in evidence && OnServer(evidence[e], i);
      var failed := exists e :: e in evidence && OnServer(evidence[e], i) && evidence[e].ackSync == SyncFailed;
      var waits := exists e :: e in evidence && OnServer(evidence[e], i) && evidence[e].ackSync == Pending;
      DerivedSync(evidence, i) == if !some then NotApplicable else if failed then SyncFailed else if waits then Pending else Synchronized
  {
    assert forall e :: e in evidence ==> (OnServer(evidence[e], i) <==> Remote(evidence[e], i));
  }

  // ----- New and repeated reports -----

  /**
   * The row a fact adds says what the fact says. A report acknowledged upstream acknowledges its incident; a Zabbix report
   * that is not waits for the acknowledgement its incident already has.
   */
  lemma AddedRowSays(db: Db, f: Fact, i: Id, p: Id, now: Time)
    requires Shape(db) && Linked(db) && ValidSeverity(f.severity) && i in db.incidents
    ensures var db2 := AddEvidence(db, f, i, p, now);
      && db.next !in db.evidence && db2.evidence.Keys == db.evidence.Keys + {db.next} && db2.impacts == db.impacts
      && var row := db2.evidence[db.next];
      && row == Evidence(i, p, f.target, f.identity, f.connector, f.binding, f.source, true, f.severity, f.openedAt, None,
                         f.upstream, row.ackSync, None, None)
      && (f.upstream ==> db2.incidents[i].acknowledgedAt.Some? && (f.identity.origin == Zabbix ==> row.ackSync == Synchronized))
      && (!f.upstream ==>
            && db2.incidents[i].acknowledgedAt == db.incidents[i].acknowledgedAt
            && row.ackSync == (if f.identity.origin == Zabbix && db.incidents[i].acknowledgedAt.Some? then Pending else NotApplicable)
            && forall e :: e in db.evidence ==> db2.evidence[e] == db.evidence[e])
      && (db.incidents[i].acknowledgedAt.Some? ==> db2.incidents[i].acknowledgedAt == db.incidents[i].acknowledgedAt)
      && (f.upstream && db.incidents[i].acknowledgedAt.None? ==> db2.incidents[i].acknowledgedAt == Some(now))
  {
    hide ImpactRow, IncidentRow, EvidenceRow, DerivedSync, AckFromEvidence;
    var added := InsertEvidence(db, f, i, p);
    assert db.next !in db.evidence && db.next in added.evidence;
    if f.upstream {
      AcknowledgedFromRow(added, i, now);
      AckFromEvidenceOnly(added, i, now);
      assert SameButSync(added.evidence[db.next], AckFromEvidence(added, i, now).evidence[db.next]);
    }
  }

  /** A report acknowledged upstream acknowledges its incident once, which settles the rows the server knows. */
  lemma AcknowledgedFromRow(db: Db, i: Id, now: Time)
    requires Linked(db) && i in db.incidents
    ensures var db2 := AckFromEvidence(db, i, now);
      && db2.impacts == db.impacts && db2.evidence.Keys == db.evidence.Keys && i in db2.incidents
      && (db.incidents[i].acknowledgedAt.Some? ==>
            db2.incidents[i].acknowledgedAt == db.incidents[i].acknowledgedAt && db2.evidence == db.evidence)
      && (db.incidents[i].acknowledgedAt.None? ==>
            && db2.incidents[i].acknowledgedAt == Some(now)
            && forall e :: e in db.evidence ==>
              if OnServer(db.evidence[e], i) then
                db2.evidence[e] == db.evidence[e].(ackSync := if db.evidence[e].upstream then Synchronized else Pending)
              else db2.evidence[e] == db.evidence[e])
  {
    hide WithSync, QueueEvidence;
    if db.incidents[i].acknowledgedAt.None? {
      var marked := db.(incidents := db.incidents[i := db.incidents[i].(acknowledgedAt := Some(now))]);
      QueuedRows(marked, i);
      StatusRederived(QueueEvidence(marked, i), i);
    } else {
      StatusRederived(db, i);
    }
  }

  lemma QueuedRows(db: Db, i: Id)
    ensures var db2 := QueueEvidence(db, i);
      && db2 == db.(evidence := db2.evidence) && db2.evidence.Keys == db.evidence.Keys
      && forall e :: e in db.evidence ==>
        if OnServer(db.evidence[e], i) then
          db2.evidence[e] == db.evidence[e].(ackSync := if db.evidence[e].upstream then Synchronized else Pending)
        else db2.evidence[e] == db.evidence[e]
  {
  }

  lemma StatusRederived(db: Db, i: Id)
    requires i in db.incidents
    ensures var db2 := RecomputeAck(db, i);
      && db2 == db.(incidents := db2.incidents) && db2.incidents.Keys == db.incidents.Keys
      && db2.incidents[i] == db.incidents[i].(ackSync := db2.incidents[i].ackSync)
  {
    hide DerivedSync;
  }

  /** A repeated report changes severity and acknowledgement, and nothing else of its row. */
  lemma RefreshedRowSays(db: Db, e: Id, f: Fact, now: Time)
    requires Linked(db) && ValidSeverity(f.severity) && e in db.evidence && db.evidence[e].active
    requires db.evidence[e].identity == f.identity
    ensures var db2, i := Refresh(db, e, f, now), db.evidence[e].incident;
      && db2.impacts == db.impacts && db2.evidence.Keys == db.evidence.Keys
      && var row, row2 := db.evidence[e], db2.evidence[e];
      && row2 == row.(severity := f.severity, upstream := f.upstream, ackSync := row2.ackSync)
      && (f.upstream ==> row2.ackSync == Synchronized && db2.incidents[i].acknowledgedAt.Some?)
      && (!f.upstream ==> row2.ackSync == if db.incidents[i].acknowledgedAt.Some? then Pending else row.ackSync)
      && (db.incidents[i].acknowledgedAt.Some? ==> db2.incidents[i].acknowledgedAt == db.incidents[i].acknowledgedAt)
      && (!f.upstream ==> db2.incidents == db.incidents)
  {
    hide AckFromEvidence;
    if f.upstream {
      AcknowledgedFromRow(RefreshRow(db, e, f), db.evidence[e].incident, now);
    }
  }

  // ----- Administration -----

  /** One active row of the incident named is closed and ruled out; anything else is refused. */
  lemma InvalidatedRow(db: Db, i: Id, e: Id, now: Time)
    ensures var r := Invalidate(db, i, e, now);
      && (r.Ok? <==> e in db.evidence && db.evidence[e].active && db.evidence[e].incident == i) && (r.Err? ==> r == Err(NotFound))
      && (r.Ok? ==>
            var row := db.evidence[e].(active := false, resolvedAt := Some(now), invalidatedAt := Some(now));
            r.value.evidence == db.evidence[e := row])
  {
  }

  /** A live target is archived and its active rows are closed; anything else is refused. */
  lemma ArchivedTargetRows(db: Db, t: string, now: Time)
    ensures var r := Archive(db, t, now);
      && (r.Ok? <==> t in db.targets && db.targets[t] == Live) && (r.Err? ==> r == Err(NotFound))
      && (r.Ok? ==>
            && r.value.targets == db.targets[t := Archived] && r.value.evidence.Keys == db.evidence.Keys
            && forall e :: e in db.evidence ==>
              if db.evidence[e].active && db.evidence[e].target == t then
                r.value.evidence[e] == db.evidence[e].(active := false, resolvedAt := Some(now))
              else r.value.evidence[e] == db.evidence[e])
  {
  }

  /** Only an archived target can be restored. */
  lemma RestoredTarget(db: Db, t: string)
    ensures var r := Restore(db, t);
      && (r.Ok? <==> t in db.targets && db.targets[t] == Archived) && (r.Ok? ==> r.value == db.(targets := db.targets[t := Live]))
  {
  }

  /** The row came from the owner. */
  predicate CameFrom(owner: Owner, row: Evidence)
  {
    match owner
    case OwnerSource(source) => source != "" && row.source == source
    case OwnerConnector(connector) => connector != "" && row.connector == connector
  }

  /** Removing a check or a connector closes exactly its active rows, and its closed ones forget it too. */
  lemma RemovedOwnerRows(db: Db, owner: Owner, now: Time)
    ensures var db2 := RemoveOwner(db, owner, now);
      && db2.targets == db.targets && db2.evidence.Keys == db.evidence.Keys
      && forall e :: e in db.evidence ==>
        var row, row2 := db.evidence[e], db2.evidence[e];
        && (!CameFrom(owner, row) ==> row2 == row)
        && (CameFrom(owner, row) ==>
              && !row2.active && row2.resolvedAt == (if row.active then Some(now) else row.resolvedAt)
              && row2 == row.(active := false, resolvedAt := row2.resolvedAt, source := row2.source, connector := row2.connector,
                              binding := row2.binding)
              && (owner.OwnerSource? ==> row2.source == "" && row2.connector == row.connector && row2.binding == row.binding)
              && (owner.OwnerConnector? ==> row2.source == row.source && row2.connector == "" && row2.binding == ""))
  {
    var es := ActiveOwned(db.evidence, owner);
    assert Close(db, es, now).evidence == ResolveRows(db, es, now).evidence;
  }

  // ----- Structural corrections -----

  /** Two distinct live targets are merged, and the absorbed one is so for good; anything else is refused. */
  lemma MergeIsRefused(db: Db, primary: string, secondary: string, order: seq<Id>, now: Time)
    requires Inv(db) && Lists(order, ImpactsOn(db.impacts, secondary))
    ensures var r := MergeTargets(db, primary, secondary, order, now);
      && (r == Err(NotFound) <==> primary == secondary || primary !in db.targets || secondary !in db.targets)
      && (r.Ok? <==>
            && primary != secondary && primary in db.targets && secondary in db.targets
            && db.targets[primary] == Live && db.targets[secondary] == Live)
      && (r.Err? ==> r.error in {NotFound, Conflict}) && (r.Ok? ==> r.value.targets == db.targets[secondary := Absorbed])
  {
    hide MergeAll, RecomputeIncidents, Partial;
    if MergeTargets(db, primary, secondary, order, now).Ok? {
      var ns := IncidentsOn(db.impacts, secondary);
      MergeStart(db, secondary, order, ns);
      MergeAllOk(db, order, primary, secondary, ns, now);
      RecomputedTargets(MergeAll(db, order, primary, now), ns, now);
    }
  }

  lemma RecomputedTargets(db: Db, ns: set<Id>, now: Time)
    ensures RecomputeIncidents(db, ns, now).targets == db.targets
  {
  }

  /** Impacts that are still there belong to their incidents, and opened when they did. */
  ghost predicate KeepsOpenings(impacts: map<Id, Impact>, impacts2: map<Id, Impact>)
  {
    forall p :: p in impacts && p in impacts2 ==>
      impacts2[p].incident == impacts[p].incident && impacts2[p].openedAt == impacts[p].openedAt
  }

  lemma DerivedKeepsOpening(db: Db, ps: set<Id>, now: Time)
    ensures RecomputeImpacts(db, ps, now).impacts.Keys == db.impacts.Keys
    ensures KeepsOpenings(db.impacts, RecomputeImpacts(db, ps, now).impacts)
  {
  }

  lemma MergeOneKeepsOpenings(db: Db, s: Id, primary: string, now: Time)
    requires s in db.impacts
    ensures var db2 := MergeOne(db, s, primary, now); KeepsOpenings(db.impacts, db2.impacts) && db2.impacts.Keys <= db.impacts.Keys
  {
    hide RecomputeImpacts;
    match ImpactOn(db.impacts, db.impacts[s].incident, primary)
    case None =>
    case Some(d) => DerivedKeepsOpening(Absorb(db, s, d, primary), {d}, now);
  }

  lemma {:induction false} MergeAllKeepsOpenings(db: Db, order: seq<Id>, primary: string, now: Time)
    ensures var db2 := MergeAll(db, order, primary, now); KeepsOpenings(db.impacts, db2.impacts) && db2.impacts.Keys <= db.impacts.Keys
    decreases |order|
  {
    hide MergeOne;
    if order != [] {
      var next := if order[0] in db.impacts then MergeOne(db, order[0], primary, now) else db;
      if order[0] in db.impacts {
        MergeOneKeepsOpenings(db, order[0], primary, now);
      }
      MergeAllKeepsOpenings(next, order[1..], primary, now);
    }
  }

  /** A merge makes no impact, and leaves those that stay in their incidents with their openings. */
  lemma MergedImpacts(db: Db, primary: string, secondary: string, order: seq<Id>, now: Time)
    requires Lists(order, ImpactsOn(db.impacts, secondary)) && MergeTargets(db, primary, secondary, order, now).Ok?
    ensures var db2 := MergeTargets(db, primary, secondary, order, now).value;
      KeepsOpenings(db.impacts, db2.impacts) && db2.impacts.Keys <= db.impacts.Keys
  {
    hide MergeAll;
    MergeAllKeepsOpenings(db, order, primary, now);
  }

  lemma ReassignOneKeepsOpenings(db: Db, s: Id, t: string, source: string, binding: string, now: Time)
    requires Shape(db) && s in db.impacts
    ensures KeepsOpenings(db.impacts, ReassignOne(db, s, t, source, binding, now).impacts)
  {
    hide RecomputeImpacts, SplitImpact, Relocate, EvidenceOf, Selected, ImpactRow, EvidenceRow, IncidentRow;
    var es, i := Selected(db.evidence, s, source, binding), db.impacts[s].incident;
    match ImpactOn(db.impacts, i, t)
    case Some(d) =>
      DerivedKeepsOpening(db, {s}, now);
      DerivedKeepsOpening(Absorb(db, s, d, t), {d}, now);
      DerivedKeepsOpening(Detach(db, es, d, t), {s, d}, now);
    case None =>
      var split := WithImpact(db, SplitImpact(db.evidence, es, i, t, now));
      DerivedKeepsOpening(Retarget(db, s, t), {s}, now);
      DerivedKeepsOpening(Detach(split, es, db.next, t), {s, db.next}, now);
  }

  /** What comes from a source: rows of the check itself, or of the binding that a connector keeps for it. */
  predicate Belongs(row: Evidence, source: string, binding: string)
  {
    (source != "" && row.source == source) || (binding != "" && row.binding == binding)
  }

  /** Exactly the rows of the source are on the destination afterwards; only a live destination is accepted. */
  lemma MovedRows(db: Db, t: string, source: string, binding: string, order: seq<Id>, now: Time)
    requires Inv(db) && Lists(order, ImpactsFrom(db.evidence, source, binding))
    ensures var r := ReassignSource(db, t, source, binding, order, now);
      && (r == Err(NotFound) <==> t !in db.targets) && (r == Err(Conflict) <==> t in db.targets && db.targets[t] != Live)
      && (t in db.targets && db.targets[t] == Live ==>
            && r.Ok? && r.value.evidence.Keys == db.evidence.Keys
            && forall e :: e in db.evidence ==>
              if Belongs(db.evidence[e], source, binding) then
                && r.value.evidence[e].target == t
                && r.value.evidence[e] == db.evidence[e].(impact := r.value.evidence[e].impact, target := t)
              else r.value.evidence[e] == db.evidence[e])
  {
    hide ReassignAll, RecomputeIncidents, Inv;
    if ReassignSource(db, t, source, binding, order, now).Ok? {
      ReassignSourceMeaning(db, t, source, binding, order, now);
    }
  }

  // ----- Natures -----

  /** A connector's nature spreads only if it has a fingerprint; a canonical one always does, whatever reports it. */
  lemma NaturesThatSpread(connector: string, key: string, fingerprint: string)
    ensures ConnectorNature(connector, key, fingerprint).eligible <==>
      exists k :: 0 <= k < |fingerprint| && !IsSpace(fingerprint[k])
    ensures CanonicalNature(key).eligible
    ensures forall connector2, key2 ::
      ConnectorNature(connector, key, fingerprint).namespace == ConnectorNature(connector2, key2, fingerprint).namespace ==> connector == connector2
  {
  }
}
