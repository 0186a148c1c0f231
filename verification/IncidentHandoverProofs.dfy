/** A handover does make the incident flicker, where its nature is not at work elsewhere. */
module IncidentHandoverProofs {
  import opened Common
  import opened IncidentModel
  import opened IncidentCycle
  import opened IncidentSnapshot
  import opened IncidentInvariants
  import opened IncidentAggregates
  import opened IncidentIdentities
  import opened IncidentAcknowledgement
  import opened IncidentPlacement
  import opened IncidentTransactions
  import opened IncidentRuns
  import opened IncidentEvolution
  import opened IncidentJoins
  import opened IncidentSequence
  import opened IncidentUniqueness
  import opened IncidentResumptions
  import opened IncidentHandovers

  // ----- Facts of other natures -----

  predicate OfNature(db: Db, i: Id, key: string)
  {
    i in db.incidents && db.incidents[i].nature.key == key
  }

  /** Incidents of the nature, their impacts and their evidence are what they were. */
  ghost predicate Spares(db: Db, db2: Db, key: string)
  {
    && (forall i :: OfNature(db2, i, key) ==> OfNature(db, i, key))
    && (forall i :: OfNature(db, i, key) ==> i in db2.incidents && db2.incidents[i] == db.incidents[i])
    && (forall p :: p in db2.impacts && OfNature(db2, db2.impacts[p].incident, key) ==> p in db.impacts)
    && (forall p :: p in db.impacts && OfNature(db, db.impacts[p].incident, key) ==> p in db2.impacts)
    && (forall p :: p in db.impacts && p in db2.impacts ==>
          OfNature(db, db.impacts[p].incident, key) || OfNature(db2, db2.impacts[p].incident, key) ==> db2.impacts[p] == db.impacts[p])
    && (forall e :: e in db2.evidence && OfNature(db2, db2.evidence[e].incident, key) ==> e in db.evidence)
    && (forall e :: e in db.evidence && OfNature(db, db.evidence[e].incident, key) ==> e in db2.evidence)
    && (forall e :: e in db.evidence && e in db2.evidence ==>
          OfNature(db, db.evidence[e].incident, key) || OfNature(db2, db2.evidence[e].incident, key) ==> db2.evidence[e] == db.evidence[e])
  }

  lemma SparesSelf(db: Db, key: string)
    ensures Spares(db, db, key)
  {
  }

  lemma SparesTrans(a: Db, b: Db, c: Db, key: string)
    requires Spares(a, b, key) && Spares(b, c, key)
    ensures Spares(a, c, key)
  {
  }

  lemma RejoinSpares(db: Db, i: Id, p: Id, f: Fact, key: string)
    requires ValidSeverity(f.severity) && i in db.incidents && db.incidents[i].nature.key != key
    requires p in db.impacts && db.impacts[p].incident == i
    ensures Spares(db, Rejoin(db, i, p, f).db, key)
  {
    hide EvidenceWindow;
  }

  lemma SpreadSpares(db: Db, i: Id, f: Fact, key: string)
    requires Shape(db) && ValidSeverity(f.severity) && i in db.incidents && db.incidents[i].nature.key != key
    ensures Spares(db, Spread(db, i, f).db, key)
  {
    hide EvidenceWindow, ImpactRow, EvidenceRow, IncidentRow;
  }

  lemma JoinSpares(db: Db, i: Id, f: Fact, key: string)
    requires Shape(db) && ValidSeverity(f.severity) && i in db.incidents && db.incidents[i].nature.key != key
    ensures Spares(db, Join(db, i, f).db, key)
  {
    hide Rejoin, Spread, Spares, Shape;
    match ImpactOn(db.impacts, i, f.target)
    case Some(p) => RejoinSpares(db, i, p, f, key);
    case None => SpreadSpares(db, i, f, key);
  }

  lemma ResumeSpares(db: Db, p: Id, f: Fact, now: Time, key: string)
    requires ValidSeverity(f.severity) && Bears(db, p, f.target, f.nature.key) && f.nature.key != key
    ensures Spares(db, Resume(db, p, f, now).db, key)
  {
  }

  lemma CreateSpares(db: Db, f: Fact, now: Time, key: string)
    requires Shape(db) && ValidSeverity(f.severity) && f.nature.key != key
    ensures Spares(db, Create(db, f, now).db, key)
  {
    hide EvidenceWindow, ImpactRow, EvidenceRow, IncidentRow;
    ShapeLinks(db);
  }

  /** A fact of another nature is recorded on an incident of another nature. */
  lemma OpenImpactSpares(db: Db, f: Fact, now: Time, key: string, keyOf: KeyOf)
    requires Shape(db) && Linked(db) && ValidSeverity(f.severity) && f.nature.key != key
    requires Coherent(db, keyOf) && CoherentNature(f.nature, keyOf)
    ensures var o := OpenImpact(db, f, now); Spares(db, o.db, key) && !OfNature(o.db, o.incident, key)
  {
    hide Join, Resume, Create, Spares, Shape, Linked;
    match ActiveImpact(db, f)
    case Some(p) => SparesSelf(db, key);
    case None =>
      match PropagatingIncident(db, f)
      case Some(i) =>
        assert CoherentNature(db.incidents[i].nature, keyOf);
        JoinSpares(db, i, f, key);
        JoinedNature(db, i, f);
      case None =>
        match ResumableImpact(db, f, now)
        case Some(p) =>
          ResumeSpares(db, p, f, now, key);
          ResumedNature(db, p, f, now);
        case None =>
          CreateSpares(db, f, now, key);
          CreatedNature(db, f, now);
  }

  lemma JoinedNature(db: Db, i: Id, f: Fact)
    requires ValidSeverity(f.severity) && i in db.incidents
    ensures var o := Join(db, i, f); o.incident == i && i in o.db.incidents && o.db.incidents[i].nature == db.incidents[i].nature
  {
    hide EvidenceWindow;
  }

  lemma ResumedNature(db: Db, p: Id, f: Fact, now: Time)
    requires ValidSeverity(f.severity) && Bears(db, p, f.target, f.nature.key)
    ensures var o := Resume(db, p, f, now); OfNature(o.db, o.incident, f.nature.key)
  {
  }

  lemma CreatedNature(db: Db, f: Fact, now: Time)
    requires ValidSeverity(f.severity)
    ensures var o := Create(db, f, now); OfNature(o.db, o.incident, f.nature.key)
  {
    hide EvidenceWindow;
  }

  lemma InsertSpares(db: Db, f: Fact, i: Id, p: Id, key: string)
    requires Shape(db) && Linked(db) && ValidSeverity(f.severity) && i in db.incidents && !OfNature(db, i, key)
    ensures Spares(db, InsertEvidence(db, f, i, p), key) && !OfNature(InsertEvidence(db, f, i, p), i, key)
  {
    hide ImpactRow, EvidenceRow, IncidentRow;
  }

  lemma MarkSpares(db: Db, i: Id, row: Incident, key: string)
    requires i in db.incidents && !OfNature(db, i, key) && row.nature == db.incidents[i].nature
    ensures Spares(db, QueueEvidence(db.(incidents := db.incidents[i := row]), i), key)
  {
  }

  lemma RecomputeAckSpares(db: Db, i: Id, key: string)
    requires i in db.incidents && !OfNature(db, i, key)
    ensures Spares(db, RecomputeAck(db, i), key)
  {
  }

  lemma AckSpares(db: Db, i: Id, now: Time, key: string)
    requires i in db.incidents && Linked(db) && !OfNature(db, i, key)
    ensures Spares(db, AckFromEvidence(db, i, now), key)
  {
    hide Spares;
    if Acknowledged(db, i) {
      RecomputeAckSpares(db, i, key);
    } else {
      var row := db.incidents[i].(acknowledgedAt := Some(now));
      var queued := QueueEvidence(db.(incidents := db.incidents[i := row]), i);
      MarkSpares(db, i, row, key);
      RecomputeAckSpares(queued, i, key);
      SparesTrans(db, queued, AckFromEvidence(db, i, now), key);
    }
  }

  lemma AddEvidenceSpares(db: Db, f: Fact, i: Id, p: Id, now: Time, key: string)
    requires Shape(db) && Linked(db) && ValidSeverity(f.severity) && i in db.incidents && !OfNature(db, i, key)
    ensures Spares(db, AddEvidence(db, f, i, p, now), key)
  {
    hide Spares, InsertEvidence, AckFromEvidence, Shape;
    var added := InsertEvidence(db, f, i, p);
    InsertSpares(db, f, i, p, key);
    InsertEvidenceSame(db, f, i, p);
    if f.upstream {
      AckSpares(added, i, now, key);
      SparesTrans(db, added, AddEvidence(db, f, i, p, now), key);
    }
  }

  lemma OpenFactSpares(db: Db, f: Fact, now: Time, key: string, keyOf: KeyOf)
    requires Shape(db) && Linked(db) && ValidSeverity(f.severity) && f.nature.key != key
    requires Coherent(db, keyOf) && CoherentNature(f.nature, keyOf)
    ensures var r := OpenFact(db, f, now); !r.Failed? ==> Spares(db, r.db, key)
  {
    hide Spares, OpenImpact, AddEvidence, Shape, Coherent, CoherentNature;
    SparesSelf(db, key);
    if OpenFact(db, f, now).Touched? {
      var o := OpenImpact(db, f, now);
      OpenImpactShape(db, f, now);
      OpenImpactSpares(db, f, now, key, keyOf);
      AddEvidenceSpares(o.db, f, o.incident, o.impact, now, key);
      SparesTrans(db, o.db, AddEvidence(o.db, f, o.incident, o.impact, now), key);
    }
  }

  lemma RefreshSpares(db: Db, e: Id, f: Fact, now: Time, key: string)
    requires Linked(db) && ValidSeverity(f.severity) && e in db.evidence && !OfNature(db, db.evidence[e].incident, key)
    ensures Spares(db, Refresh(db, e, f, now), key)
  {
    hide AckFromEvidence;
    var refreshed := RefreshRow(db, e, f);
    assert Spares(db, refreshed, key);
    if f.upstream {
      AckSpares(refreshed, db.evidence[e].incident, now, key);
      SparesTrans(db, refreshed, Refresh(db, e, f, now), key);
    }
  }

  // ----- An incident waiting to be taken over -----

  predicate RowOf(row: Evidence, i: Id) { row.active && row.incident == i }

  ghost predicate Evidenced(db: Db, i: Id)
  {
    exists e :: e in db.evidence && RowOf(db.evidence[e], i)
  }

  /** The incident still has evidence and its window is over, or it has been resolved by the pass. */
  ghost predicate Ending(db: Db, i: Id, now: Time)
    requires i in db.incidents
  {
    var row := db.incidents[i];
    if Evidenced(db, i) then row.status == Active && (row.propagation == Closed || row.endsAt <= now)
    else row.status == Resolved && row.resolvedAt == Some(now)
  }

  /** Incident `i`, with its only impact `p` at `spot`, while the facts before its handover are applied. */
  ghost predicate Waiting(db: Db, seen: set<Identity>, i: Id, p: Id, spot: Spot, known: set<Id>, now: Time)
  {
    && OfNature(db, i, spot.nature) && Ending(db, i, now)
    && ImpactsOf(db.impacts, i) == {p} && db.impacts[p].target == spot.target
    && (forall q :: OpenAt(db, q) && SpotOf(db, q) == spot ==> q == p)
    && (forall e :: e in db.evidence && RowOf(db.evidence[e], i) ==> db.evidence[e].identity !in seen)
    && (forall j :: OfNature(db, j, spot.nature) && j != i ==> db.incidents[j].propagation == Closed)
    && (forall q :: Bears(db, q, spot.target, spot.nature) ==> q in known)
  }

  lemma SparedWaits(db: Db, db2: Db, seen: set<Identity>, seen2: set<Identity>, i: Id, p: Id, spot: Spot, known: set<Id>, now: Time)
    requires Waiting(db, seen, i, p, spot, known, now) && Spares(db, db2, spot.nature)
    requires forall e :: e in db.evidence && RowOf(db.evidence[e], i) ==> db.evidence[e].identity !in seen2
    ensures Waiting(db2, seen2, i, p, spot, known, now)
  {
    assert forall e :: e in db2.evidence && RowOf(db2.evidence[e], i) ==> e in db.evidence && RowOf(db.evidence[e], i);
    assert Evidenced(db2, i) <==> Evidenced(db, i) by {
      if e :| e in db.evidence && RowOf(db.evidence[e], i) {
        assert e in db2.evidence && RowOf(db2.evidence[e], i);
      }
    }
    assert ImpactsOf(db2.impacts, i) == ImpactsOf(db.impacts, i);
    assert p in ImpactsOf(db.impacts, i);
    forall q | OpenAt(db2, q) && SpotOf(db2, q) == spot
      ensures OpenAt(db, q) && SpotOf(db, q) == spot
    {
      assert OfNature(db2, db2.impacts[q].incident, spot.nature);
    }
    forall q | Bears(db2, q, spot.target, spot.nature)
      ensures q in known
    {
      assert OfNature(db2, db2.impacts[q].incident, spot.nature);
      assert Bears(db, q, spot.target, spot.nature);
    }
  }

  // ----- Rows retired meanwhile -----

  lemma AggregatedEnds(evidence: map<Id, Evidence>, impacts: map<Id, Impact>, live: int, i: Id, row: Incident, now: Time)
    requires row.status == Active && (row.propagation == Closed || row.endsAt <= now)
    ensures var row2 := WithSync(evidence, i, Aggregated(impacts, live, i, row, now));
      && (ActiveOf(impacts, i) == {} ==> row2.status == Resolved && row2.resolvedAt == Some(now))
      && (ActiveOf(impacts, i) != {} ==> row2.status == Active && row2.propagation == Closed)
  {
  }

  lemma RetiredIncident(db: Db, e: Id, now: Time)
    requires Shape(db) && e in db.evidence && Linked(db)
    ensures var at, n := Retire(db, e, now), db.evidence[e].incident;
      && at.incidents.Keys == db.incidents.Keys && n in at.incidents
      && at.incidents[n] == WithSync(at.evidence, n, Aggregated(at.impacts, LiveTargetCount(db.targets), n, db.incidents[n], now))
      && (forall i :: i in db.incidents && i != n ==> at.incidents[i] == db.incidents[i])
      && (forall i :: i in db.incidents ==> at.incidents[i].nature == db.incidents[i].nature)
  {
    hide DerivedImpact, LiveTargetCount, IncidentRow, ImpactRow, EvidenceRow;
  }

  /** Evidence, openness and the incident that loses a row. */
  lemma RetiredEnding(db: Db, e: Id, done: set<Spot>, seen: set<Identity>, i: Id, p: Id, now: Time)
    requires Shape(db) && Linked(db) && Flow(db, done, seen) && e in db.evidence && RowOf(db.evidence[e], i)
    requires db.evidence[e].identity !in seen && i in db.incidents && Ending(db, i, now) && ImpactsOf(db.impacts, i) == {p}
    ensures i in Retire(db, e, now).incidents && Ending(Retire(db, e, now), i, now)
  {
    hide Flow, Shape, Aggregated, Retire;
    var at := Retire(db, e, now);
    assert Evidenced(db, i);
    RetireShape(db, e, now);
    RetireFlow(db, e, done, seen, now);
    RetirePlaces(db, e, now);
    RetiredIncident(db, e, now);
    AggregatedEnds(at.evidence, at.impacts, LiveTargetCount(db.targets), i, db.incidents[i], now);
    assert ImpactsOf(at.impacts, i) == ImpactsOf(db.impacts, i);
    EvidencedIffOpen(at, done, seen, i, p);
  }

  lemma EvidencedIffOpen(db: Db, done: set<Spot>, seen: set<Identity>, i: Id, p: Id)
    requires Shape(db) && Flow(db, done, seen) && ImpactsOf(db.impacts, i) == {p}
    ensures Evidenced(db, i) <==> ActiveOf(db.impacts, i) != {}
  {
    hide IncidentRow, ImpactRow;
    assert p in ImpactsOf(db.impacts, i);
    if e :| e in db.evidence && RowOf(db.evidence[e], i) {
      var q := db.evidence[e].impact;
      assert q in ImpactsOf(db.impacts, i);
      assert Sustains(db.evidence[e], p);
      assert p in ActiveOf(db.impacts, i);
    }
    if q :| q in ActiveOf(db.impacts, i) {
      assert q in ImpactsOf(db.impacts, i);
      var e :| e in db.evidence && Sustains(db.evidence[e], p);
      assert RowOf(db.evidence[e], i);
    }
  }

  lemma RetiredStays(db: Db, e: Id, i: Id, now: Time)
    requires Shape(db) && Linked(db) && e in db.evidence && db.evidence[e].incident != i && i in db.incidents && Ending(db, i, now)
    ensures i in Retire(db, e, now).incidents && Ending(Retire(db, e, now), i, now)
  {
    hide Shape, Retire, Aggregated;
    var at := Retire(db, e, now);
    RetiredIncident(db, e, now);
    RetiredEvidence(db, e, now);
    assert forall x :: x in db.evidence ==> (RowOf(at.evidence[x], i) <==> RowOf(db.evidence[x], i));
    assert Evidenced(at, i) <==> Evidenced(db, i) by {
      if x :| x in db.evidence && RowOf(db.evidence[x], i) {
        assert x in at.evidence && RowOf(at.evidence[x], i);
      }
    }
  }

  lemma RetiredWaits(db: Db, e: Id, done: set<Spot>, seen: set<Identity>, i: Id, p: Id, spot: Spot, known: set<Id>, now: Time)
    requires Shape(db) && Linked(db) && Flow(db, done, seen) && Waiting(db, seen, i, p, spot, known, now)
    requires e in db.evidence && db.evidence[e].active && db.evidence[e].identity !in seen
    ensures Waiting(Retire(db, e, now), seen, i, p, spot, known, now)
  {
    hide Flow, Shape, Aggregated, Retire, Ending, Evolves;
    var at := Retire(db, e, now);
    RetireFlow(db, e, done, seen, now);
    RetirePlaces(db, e, now);
    RetiredIncident(db, e, now);
    RetiredEvidence(db, e, now);
    RetireEvolves(db, e, now);
    if db.evidence[e].incident == i {
      RetiredEnding(db, e, done, seen, i, p, now);
    } else {
      RetiredStays(db, e, i, now);
    }
    assert ImpactsOf(at.impacts, i) == ImpactsOf(db.impacts, i);
    assert p in ImpactsOf(db.impacts, i);
    forall j | OfNature(at, j, spot.nature) && j != i
      ensures at.incidents[j].propagation == Closed
    {
      StaysClosed(db, at, j, now);
    }
    forall q | Bears(at, q, spot.target, spot.nature)
      ensures q in known
    {
      assert Bears(db, q, spot.target, spot.nature);
    }
  }

  lemma StaysClosed(db: Db, db2: Db, j: Id, now: Time)
    requires Evolves(db, db2, now) && j in db.incidents && db.incidents[j].propagation == Closed
    ensures db2.incidents[j].propagation == Closed
  {
    assert IncidentEvolves(db.incidents[j], db2.incidents[j], now);
  }

  // ----- One fact of another nature -----

  lemma FactWaits(db: Db, f: Fact, done: set<Spot>, seen: set<Identity>, i: Id, p: Id, spot: Spot, known: set<Id>,
      keyOf: KeyOf, now: Time)
    requires Shape(db) && Linked(db) && Identities(db) && Flow(db, done, seen) && Waiting(db, seen, i, p, spot, known, now)
    requires Coherent(db, keyOf) && CoherentNature(f.nature, keyOf) && f.nature.key != spot.nature && f.identity !in seen
    requires !ApplyFact(db, f, now).Failed?
    ensures Waiting(ApplyFact(db, f, now).db, seen + {f.identity}, i, p, spot, known, now)
  {
    hide OpenFact, Refresh, Retire, Shape, Flow, Coherent, CoherentNature, Spares;
    match ActiveRow(db.evidence, f.identity)
    case None =>
      OpenFactSpares(db, f, now, spot.nature, keyOf);
      SparedWaits(db, OpenFact(db, f, now).db, seen, seen + {f.identity}, i, p, spot, known, now);
    case Some(e) =>
      ShapeRow(db, e);
      if Agrees(db, e, f) {
        RefreshSpares(db, e, f, now, spot.nature);
        SparedWaits(db, Refresh(db, e, f, now), seen, seen + {f.identity}, i, p, spot, known, now);
      } else {
        RetireShape(db, e, now);
        MovedWaits(db, e, f, done, seen, i, p, spot, known, keyOf, now);
      }
  }

  lemma MovedWaits(db: Db, e: Id, f: Fact, done: set<Spot>, seen: set<Identity>, i: Id, p: Id, spot: Spot, known: set<Id>,
      keyOf: KeyOf, now: Time)
    requires Shape(db) && Linked(db) && Identities(db) && Flow(db, done, seen) && Waiting(db, seen, i, p, spot, known, now)
    requires Coherent(db, keyOf) && CoherentNature(f.nature, keyOf) && f.nature.key != spot.nature && ValidSeverity(f.severity)
    requires e in db.evidence && db.evidence[e].active && db.evidence[e].identity == f.identity && f.identity !in seen
    requires Linked(Retire(db, e, now)) && !OpenFact(Retire(db, e, now), f, now).Failed?
    ensures Waiting(OpenFact(Retire(db, e, now), f, now).db, seen + {f.identity}, i, p, spot, known, now)
  {
    hide OpenFact, Retire, Shape, Flow, Coherent, CoherentNature, Spares, Ending, Identities;
    var at := Retire(db, e, now);
    RetireShape(db, e, now);
    RetireFlow(db, e, done, seen, now);
    RetireOrderly(db, e, keyOf, now);
    RetireOutcome(db, e, now);
    RetiredWaits(db, e, done, seen, i, p, spot, known, now);
    OpenFactSpares(at, f, now, spot.nature, keyOf);
    SparedWaits(at, OpenFact(at, f, now).db, seen, seen + {f.identity}, i, p, spot, known, now);
  }

  // ----- The fact that takes over -----

  /** The tables in which the fact decides have the incident resolved, and nothing else at its spot. */
  lemma TakesOver(at: Db, f: Fact, done: set<Spot>, seen: set<Identity>, i: Id, p: Id, known: set<Id>, keyOf: KeyOf, now: Time)
    requires Shape(at) && Flow(at, done, seen) && Waiting(at, seen, i, p, FactSpot(f), known, now) && !Evidenced(at, i)
    requires Coherent(at, keyOf) && CoherentNature(f.nature, keyOf) && f.openedAt - RESUMPTION_WINDOW <= now
    requires forall q :: Bears(at, q, f.target, f.nature.key) ==>
      at.impacts[q].incident == i || at.incidents[at.impacts[q].incident].openedAt < at.incidents[i].openedAt
    ensures ActiveImpact(at, f).None? && PropagatingIncident(at, f).None? && ResumableImpact(at, f, now) == Some(p)
  {
    assert p in ImpactsOf(at.impacts, i);
    NothingHosts(at, f, seen, i, p, known, now);
    NothingPropagates(at, f, seen, i, p, known, keyOf, now);
    FlowTallied(at, done, seen);
    assert Bears(at, p, f.target, f.nature.key) && Resumable(at, p, f, now);
    var q := ResumableImpact(at, f, now).value;
    assert Bears(at, q, f.target, f.nature.key);
    assert q in ImpactsOf(at.impacts, i);
  }

  lemma NothingHosts(at: Db, f: Fact, seen: set<Identity>, i: Id, p: Id, known: set<Id>, now: Time)
    requires Waiting(at, seen, i, p, FactSpot(f), known, now) && !Evidenced(at, i)
    ensures ActiveImpact(at, f).None?
  {
    assert p in ImpactsOf(at.impacts, i);
    assert forall q :: Hosts(at, q, f.target, f.nature.key) ==> OpenAt(at, q) && SpotOf(at, q) == FactSpot(f);
  }

  lemma NothingPropagates(at: Db, f: Fact, seen: set<Identity>, i: Id, p: Id, known: set<Id>, keyOf: KeyOf, now: Time)
    requires Waiting(at, seen, i, p, FactSpot(f), known, now) && !Evidenced(at, i)
    requires Coherent(at, keyOf) && CoherentNature(f.nature, keyOf)
    ensures PropagatingIncident(at, f).None?
  {
    if PropagatingIncident(at, f).Some? {
      var j := PropagatingIncident(at, f).value;
      assert CoherentNature(at.incidents[j].nature, keyOf);
      assert OfNature(at, j, f.nature.key);
    }
  }

  // ----- A nature at work nowhere else -----

  /**
   * The snapshot reports the nature of incident `i` under one identity at most; no other incident of that nature has an
   * open window or opened at the same instant.
   */
  ghost predicate Lone(db: Db, facts: seq<Fact>, i: Id)
    requires i in db.incidents
  {
    var key := db.incidents[i].nature.key;
    && (forall k, l :: 0 <= k < l < |facts| && facts[k].nature.key == key && facts[l].nature.key == key ==>
          facts[k].identity == facts[l].identity)
    && (forall j :: OfNature(db, j, key) && j != i ==>
          db.incidents[j].propagation == Closed && db.incidents[j].openedAt != db.incidents[i].openedAt)
  }

  lemma WaitingStarts(db: Db, facts: seq<Fact>, now: Time, i: Id, l: nat) returns (p: Id)
    requires Inv(db) && Linked(db) && OnePerNature(db) && HandedOver(db, facts, now, i, l) && Lone(db, facts, i)
    ensures Waiting(db, {}, i, p, FactSpot(facts[l]), db.impacts.Keys, now)
  {
    hide Inv, MovedBefore, LatestAt;
    var spot := FactSpot(facts[l]);
    p :| ImpactsOf(db.impacts, i) == {p} && OpenAt(db, p) && SpotOf(db, p) == spot;
    assert p in ImpactsOf(db.impacts, i);
    OpenIsEvidenced(db, p);
  }

  lemma OpenIsEvidenced(db: Db, p: Id)
    requires Inv(db) && OpenAt(db, p)
    ensures Evidenced(db, db.impacts[p].incident)
  {
    hide IncidentAgrees, IncidentRow, ImpactRow;
    assert ImpactAgrees(db.evidence, p, db.impacts[p]);
    var e :| e in db.evidence && Sustains(db.evidence[e], p);
    assert RowOf(db.evidence[e], db.impacts[p].incident);
  }

  // ----- At the turn of the fact that takes over -----

  lemma NothingLeft(db: Db, facts: seq<Fact>, l: nat, pass: Pass, now: Time, i: Id)
    requires Linked(db) && Tracks(db, facts, l, pass, now) && HandedOver(db, facts, now, i, l)
    requires forall e :: e in pass.db.evidence && RowOf(pass.db.evidence[e], i) ==> pass.db.evidence[e].identity !in pass.seen
    ensures !Evidenced(pass.db, i) && facts[l].identity !in pass.seen
  {
    hide Evolves, KeepsPlaces, SameSuppressions, AboutToEnd, LatestAt;
    forall e | e in db.evidence && RowOf(db.evidence[e], i)
      ensures db.evidence[e].identity in pass.seen
    {
      assert MovedBefore(db, facts, l, e);
    }
    assert forall e :: e in db.evidence && db.evidence[e].active ==> RowTracked(db, facts, l, pass.db, pass.seen, e);
  }

  /** A row where the fact says would keep the incident alive. */
  lemma NewcomerMoves(db: Db, f: Fact, done: set<Spot>, seen: set<Identity>, i: Id, p: Id, known: set<Id>, now: Time, e: Id)
    requires Shape(db) && Linked(db) && Flow(db, done, seen) && Waiting(db, seen, i, p, FactSpot(f), known, now) && !Evidenced(db, i)
    requires e in db.evidence && db.evidence[e].active
    ensures !Agrees(db, e, f)
  {
    hide IncidentRow, ImpactRow;
    assert p in ImpactsOf(db.impacts, i);
    var row, q := db.evidence[e], db.evidence[e].impact;
    assert Sustains(row, q);
    assert OpenAt(db, q) && SpotOf(db, q) == Spot(row.target, db.incidents[row.incident].nature.key);
    assert RowOf(row, i) <==> row.incident == i;
  }

  lemma DecidingWaits(db: Db, f: Fact, done: set<Spot>, seen: set<Identity>, i: Id, p: Id, known: set<Id>, keyOf: KeyOf, now: Time)
    requires Shape(db) && Linked(db) && Flow(db, done, seen) && f.identity !in seen && Coherent(db, keyOf)
    requires Waiting(db, seen, i, p, FactSpot(f), known, now) && !Evidenced(db, i)
    ensures var at := Deciding(db, f, now); Waiting(at, seen, i, p, FactSpot(f), known, now) && !Evidenced(at, i) && Coherent(at, keyOf)
  {
    hide Shape, Flow, Waiting, Coherent, Retire;
    match ActiveRow(db.evidence, f.identity)
    case None =>
    case Some(e) =>
      RetiredWaits(db, e, done, seen, i, p, FactSpot(f), known, now);
      RetireFlow(db, e, done, seen, now);
      RetireOrderly(db, e, keyOf, now);
      RetiredEvidence(db, e, now);
      var at := Retire(db, e, now);
      assert forall x :: x in at.evidence && RowOf(at.evidence[x], i) ==> x in db.evidence && RowOf(db.evidence[x], i);
  }

  lemma OthersAreEarlier(db: Db, facts: seq<Fact>, at: Db, now: Time, i: Id, l: nat)
    requires Linked(db) && Linked(at) && Evolves(db, at, now) && KeepsPlaces(db, at)
    requires HandedOver(db, facts, now, i, l) && Lone(db, facts, i) && i in at.incidents
    requires forall q :: Bears(at, q, facts[l].target, facts[l].nature.key) ==> q in db.impacts.Keys
    ensures forall q :: Bears(at, q, facts[l].target, facts[l].nature.key) ==>
      at.impacts[q].incident == i || at.incidents[at.impacts[q].incident].openedAt < at.incidents[i].openedAt
  {
    hide Evolves, KeepsPlaces, MovedBefore;
    var f := facts[l];
    EvolvedOpening(db, at, i, now);
    forall q | Bears(at, q, f.target, f.nature.key)
      ensures at.impacts[q].incident == i || at.incidents[at.impacts[q].incident].openedAt < at.incidents[i].openedAt
    {
      KeptSpot(db, at, q, now);
      PlaceKept(db, at, q);
      assert Bears(db, q, f.target, f.nature.key) && OfNature(db, db.impacts[q].incident, f.nature.key);
    }
  }

  lemma PlaceKept(db: Db, at: Db, q: Id)
    requires KeepsPlaces(db, at) && q in db.impacts
    ensures q in at.impacts && at.impacts[q].incident == db.impacts[q].incident
  {
  }

  lemma EvolvedOpening(db: Db, at: Db, i: Id, now: Time)
    requires Evolves(db, at, now) && i in db.incidents && i in at.incidents
    ensures at.incidents[i].openedAt == db.incidents[i].openedAt
  {
    assert IncidentEvolves(db.incidents[i], at.incidents[i], now);
  }

  lemma HandoverResumes(db: Db, facts: seq<Fact>, l: nat, pass: Pass, done: set<Spot>, keyOf: KeyOf, now: Time, i: Id, p: Id)
    requires Linked(db) && Shape(pass.db) && Linked(pass.db) && Flow(pass.db, done, pass.seen) && Coherent(pass.db, keyOf)
    requires Tracks(db, facts, l, pass, now) && HandedOver(db, facts, now, i, l) && Lone(db, facts, i)
    requires Complete(facts[l]) && CoherentNature(facts[l].nature, keyOf)
    requires Waiting(pass.db, pass.seen, i, p, FactSpot(facts[l]), db.impacts.Keys, now)
    ensures facts[l].identity !in pass.seen && FactResumes(pass.db, facts[l], now, i)
  {
    hide Shape, Flow, Retire, Evolves, KeepsPlaces, SamePlaces, Complete, SeenBefore, RowTracked, Agrees, Suppressed, Coherent,
      CoherentNature, Lone, Linked, AboutToEnd, LatestAt, MovedBefore, Evidenced, Bears;
    var f, at, known := facts[l], Deciding(pass.db, facts[l], now), db.impacts.Keys;
    NothingLeft(db, facts, l, pass, now, i);
    if ActiveRow(pass.db.evidence, f.identity).Some? {
      NewcomerMoves(pass.db, f, done, pass.seen, i, p, known, now, ActiveRow(pass.db.evidence, f.identity).value);
      ShapeRow(pass.db, ActiveRow(pass.db.evidence, f.identity).value);
    }
    DecidingState(pass.db, f, done, pass.seen, now);
    DecidingWaits(pass.db, f, done, pass.seen, i, p, known, keyOf, now);
    EvolvesTrans(db, pass.db, at, now);
    SamePlacesKeeps(pass.db, at);
    PlacesTrans(db, pass.db, at);
    OthersAreEarlier(db, facts, at, now, i, l);
    TakesOver(at, f, done, pass.seen, i, p, known, keyOf, now);
    assert p in ImpactsOf(at.impacts, i);
  }

  // ----- The whole pass -----

  lemma AppliedIsComplete(pass: Pass, f: Fact, now: Time)
    requires Linked(pass.db) && f.identity !in pass.seen && ApplyOne(pass, f, now).Ok?
    ensures Complete(f)
  {
  }

  lemma OneWaits(pass: Pass, f: Fact, done: set<Spot>, i: Id, p: Id, spot: Spot, known: set<Id>, keyOf: KeyOf, now: Time)
    requires Shape(pass.db) && Linked(pass.db) && Identities(pass.db) && Flow(pass.db, done, pass.seen)
    requires Waiting(pass.db, pass.seen, i, p, spot, known, now) && f.nature.key != spot.nature
    requires Coherent(pass.db, keyOf) && CoherentNature(f.nature, keyOf) && ApplyOne(pass, f, now).Ok?
    ensures var mid := ApplyOne(pass, f, now).value; Waiting(mid.db, mid.seen, i, p, spot, known, now)
  {
    hide ApplyFact, Shape, Identities, Flow, Waiting, Coherent, CoherentNature;
    if f.identity !in pass.seen {
      FactWaits(pass.db, f, done, pass.seen, i, p, spot, known, keyOf, now);
    }
  }

  /** From any position up to the handover, the pass goes on to resume the incident. */
  lemma {:induction false} WaitingIsResumed(db: Db, facts: seq<Fact>, k: nat, l: nat, pass: Pass, done: set<Spot>, keyOf: KeyOf,
      now: Time, i: Id, p: Id)
    requires Linked(db) && PassOk(pass) && Linked(pass.db) && Flow(pass.db, done, pass.seen) && Coherent(pass.db, keyOf)
    requires k <= l && Tracks(db, facts, k, pass, now) && CoherentFacts(facts, keyOf)
    requires !PassCollides(pass, facts[k..], now) && ApplyFacts(pass, facts[k..], now).Ok?
    requires HandedOver(db, facts, now, i, l) && Lone(db, facts, i)
    requires Waiting(pass.db, pass.seen, i, p, FactSpot(facts[l]), db.impacts.Keys, now)
    ensures PassResumes(pass, facts[k..], now, i)
    decreases l - k
  {
    hide ApplyOne, PassOk, Flow, Shape, Identities, FactCollides, FactResumes, Coherent, Orderly, Waiting, Lone, Evolves,
      KeepsPlaces, SameSuppressions, SeenBefore, RowTracked, CoherentNature;
    assert facts[k..][0] == facts[k] && facts[k..][1..] == facts[k + 1..];
    var f, spot := facts[k], FactSpot(facts[l]);
    PassParts(pass);
    assert CoherentNature(f.nature, keyOf) && CoherentNature(facts[l].nature, keyOf);
    if k == l {
      WaitingUnseen(db, facts, l, pass, now, i, p);
      AppliedIsComplete(pass, f, now);
      HandoverResumes(db, facts, l, pass, done, keyOf, now, i, p);
    } else {
      var mid := ApplyOne(pass, f, now).value;
      BeforeHandover(db, facts, now, i, k, l);
      ApplyOneOk(pass, f, now);
      ApplyOneFlow(pass, f, done, keyOf, now);
      OrderlyCoherent(pass.db, mid.db, keyOf);
      TracksStep(db, facts, k, pass, now);
      OneWaits(pass, f, done, i, p, spot, db.impacts.Keys, keyOf, now);
      WaitingIsResumed(db, facts, k + 1, l, mid, SpotsAfter(pass, f, done), keyOf, now, i, p);
    }
  }

  lemma WaitingUnseen(db: Db, facts: seq<Fact>, l: nat, pass: Pass, now: Time, i: Id, p: Id)
    requires Linked(db) && Tracks(db, facts, l, pass, now) && HandedOver(db, facts, now, i, l)
    requires Waiting(pass.db, pass.seen, i, p, FactSpot(facts[l]), db.impacts.Keys, now)
    ensures facts[l].identity !in pass.seen
  {
    hide Tracks, HandedOver, Ending, OfNature;
    NothingLeft(db, facts, l, pass, now, i);
  }

  /** The facts before the handover are of other natures. */
  lemma BeforeHandover(db: Db, facts: seq<Fact>, now: Time, i: Id, k: nat, l: nat)
    requires Linked(db) && k < l && HandedOver(db, facts, now, i, l) && Lone(db, facts, i)
    ensures facts[k].nature.key != facts[l].nature.key
  {
    hide LatestAt, MovedBefore;
    var p :| ImpactsOf(db.impacts, i) == {p} && OpenAt(db, p) && SpotOf(db, p) == FactSpot(facts[l]);
    assert p in ImpactsOf(db.impacts, i);
  }

  /** A handover makes the incident flicker, unless its nature is at work elsewhere. */
  lemma HandoverFlickers(db: Db, s: Snapshot, i: Id, l: nat, keyOf: KeyOf)
    requires Regular(db, keyOf) && Linked(db) && Tame(Observe(s), keyOf) && ApplySnapshot(db, s).Ok? && OnePerNature(db)
    requires HandedOver(db, Prepared(s), s.observedAt, i, l) && Lone(db, Prepared(s), i)
    ensures Flickers(db, Observe(s), i)
  {
    hide Flow, PassFlickers, PassResumes, Tracks, Shape, Waiting, Lone, MovedBefore, LatestAt, ApplyFacts, OnePerNature, Finish;
    var pass, facts := Pass(db, {}, {}, {}), Prepared(s);
    FlowStarts(db);
    SeparateSnapshotFits(db, s, keyOf);
    TracksStart(db, facts, s.observedAt);
    assert facts[0..] == facts;
    var p := WaitingStarts(db, facts, s.observedAt, i, l);
    WaitingIsResumed(db, facts, 0, l, pass, {}, keyOf, s.observedAt, i, p);
    SnapshotCount(db, s, i, keyOf);
  }

  /**
   * Told from the tables and the snapshot: a snapshot resumes an incident that it finds active exactly if it hands it
   * over, where impacts are unique and the nature of the incident is not at work elsewhere.
   */
  lemma FlickersExactly(db: Db, s: Snapshot, i: Id, keyOf: KeyOf)
    requires Regular(db, keyOf) && Linked(db) && Tame(Observe(s), keyOf) && ApplySnapshot(db, s).Ok? && OnePerNature(db)
    requires i in db.incidents && Lone(db, Prepared(s), i)
    ensures Flickers(db, Observe(s), i) <==> exists l :: HandedOver(db, Prepared(s), s.observedAt, i, l)
  {
    hide Regular, Tame, ApplySnapshot, OnePerNature, Lone, HandedOver, Flickers;
    if Flickers(db, Observe(s), i) {
      var l := FlickeringIsHandover(db, s, i, keyOf);
    }
    if l: nat :| HandedOver(db, Prepared(s), s.observedAt, i, l) {
      HandoverFlickers(db, s, i, l, keyOf);
    }
  }

  // ----- Runs in which nothing is handed over -----

  /** Row `e` is the active evidence of the fact, and elsewhere. */
  predicate Contradicts(db: Db, e: Id, f: Fact)
    requires Linked(db)
  {
    e in db.evidence && db.evidence[e].active && db.evidence[e].identity == f.identity && !Agrees(db, e, f)
  }

  /** Every reported identity with active evidence is reported where that evidence is. */
  ghost predicate Agreeing(db: Db, s: Snapshot)
    requires Linked(db)
  {
    forall k, e :: 0 <= k < |Prepared(s)| ==> !Contradicts(db, e, Prepared(s)[k])
  }

  /** A snapshot of the run, if there is one, hands incident `i` over to no fact. */
  ghost predicate NoHandover(db: Db, step: Step, i: Id)
    requires Linked(db)
  {
    step.Observe? ==> forall l :: !HandedOver(db, Prepared(step.s), step.s.observedAt, i, l)
  }

  /** Agreeing snapshots hand nothing over. */
  lemma AgreeingHandsNothingOver(db: Db, s: Snapshot, i: Id)
    requires Inv(db) && Linked(db) && Agreeing(db, s)
    ensures NoHandover(db, Observe(s), i)
  {
    hide Inv, LatestAt;
    forall l: nat
      ensures !HandedOver(db, Prepared(s), s.observedAt, i, l)
    {
      if HandedOver(db, Prepared(s), s.observedAt, i, l) {
        HandoverMoves(db, Prepared(s), s.observedAt, i, l);
      }
    }
  }

  lemma HandoverMoves(db: Db, facts: seq<Fact>, now: Time, i: Id, l: nat)
    requires Inv(db) && Linked(db) && HandedOver(db, facts, now, i, l)
    ensures exists k, e :: 0 <= k < |facts| && Contradicts(db, e, facts[k])
  {
    hide Inv, LatestAt;
    var p :| ImpactsOf(db.impacts, i) == {p} && OpenAt(db, p) && SpotOf(db, p) == FactSpot(facts[l]);
    assert p in ImpactsOf(db.impacts, i);
    OpenIsEvidenced(db, p);
    var e :| e in db.evidence && RowOf(db.evidence[e], i);
    assert MovedBefore(db, facts, l, e);
    var k: nat :| k < l && Moves(db, facts, k, e);
    assert Contradicts(db, e, facts[k]);
  }

  ghost predicate NeverHandedOver(db: Db, steps: seq<Step>, i: Id)
    decreases |steps|
  {
    steps == [] ||
    (Linked(db) && Enabled(db, steps[0]) && NoHandover(db, steps[0], i) && NeverHandedOver(Next(db, steps[0]), steps[1..], i))
  }

  /** Without a handover, resumptions are exactly the changes from resolved to active between committed states. */
  lemma {:induction false} RunCountsExactly(db: Db, steps: seq<Step>, db2: Db, i: Id, keyOf: KeyOf)
    requires Regular(db, keyOf) && Reaches(db, steps, db2) && (forall k :: 0 <= k < |steps| ==> Tame(steps[k], keyOf))
    requires NeverHandedOver(db, steps, i)
    ensures ResumptionsIn(db2, i) - ResumptionsIn(db, i) == Reactivations(db, steps, i)
    decreases |steps|
  {
    hide Next, Regular, ResumptionsIn, Reactivates, Tame, NoHandover;
    if steps != [] {
      StepKeeps(db, steps[0], keyOf);
      StepResumptions(db, steps[0], i, keyOf);
      NothingFlickers(db, steps[0], i, keyOf);
      RunCountsExactly(Next(db, steps[0]), steps[1..], db2, i, keyOf);
    }
  }

  lemma NothingFlickers(db: Db, step: Step, i: Id, keyOf: KeyOf)
    requires Regular(db, keyOf) && Linked(db) && Tame(step, keyOf) && NoHandover(db, step, i)
    ensures !Flickers(db, step, i)
  {
    hide Regular, Tame, HandedOver;
    if Flickers(db, step, i) {
      var l := FlickeringIsHandover(db, step.s, i, keyOf);
      assert false;
    }
  }
}
