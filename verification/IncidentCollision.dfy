/** What a collision within a snapshot breaks for good. */
module IncidentCollision {
  import opened Common
  import opened IncidentModel
  import opened IncidentCycle
  import opened IncidentSnapshot
  import opened IncidentInvariants
  import opened IncidentAggregates
  import opened IncidentIdentities
  import opened IncidentTransactions
  import opened IncidentSequence
  import opened IncidentUniqueness

  // ----- What the rest of a snapshot cannot repair -----

  /** An open impact that evidence reported by the snapshot sustains. */
  ghost predicate Anchored(db: Db, seen: set<Identity>, p: Id)
  {
    OpenAt(db, p) && exists e :: e in db.evidence && Sustains(db.evidence[e], p) && db.evidence[e].identity in seen
  }

  function RowOf(db: Db, p: Id): Incident
    requires OpenAt(db, p)
  {
    db.incidents[db.impacts[p].incident]
  }

  ghost predicate Doubled(db: Db, seen: set<Identity>, p: Id, q: Id)
  {
    p != q && Anchored(db, seen, p) && Anchored(db, seen, q) && SpotOf(db, p) == SpotOf(db, q)
  }

  /** More resumptions than resolutions. */
  ghost predicate Overdrawn(db: Db, seen: set<Identity>, p: Id)
  {
    Anchored(db, seen, p) && RowOf(db, p).resolutions < RowOf(db, p).resumptions
  }

  ghost predicate Wrecked(db: Db, seen: set<Identity>)
  {
    (exists p, q :: Doubled(db, seen, p, q)) || (exists p :: Overdrawn(db, seen, p))
  }

  lemma WreckedBreaks(db: Db, seen: set<Identity>)
    requires Wrecked(db, seen)
    ensures !(OnePerNature(db) && AllBalanced(db))
  {
    if p, q :| Doubled(db, seen, p, q) {
      assert OpenAt(db, p) && OpenAt(db, q) && SpotOf(db, p) == SpotOf(db, q);
    } else {
      var p :| Overdrawn(db, seen, p);
      assert !Balanced(db.impacts, db.impacts[p].incident, RowOf(db, p));
    }
  }

  /** Anchored impacts stay anchored where they are; their incidents are not resolved meanwhile. */
  ghost predicate Holds(db: Db, db2: Db, seen: set<Identity>)
  {
    forall p :: Anchored(db, seen, p) ==> HoldsAt(db, db2, seen, p)
  }

  ghost predicate HoldsAt(db: Db, db2: Db, seen: set<Identity>, p: Id)
    requires OpenAt(db, p)
  {
    && Anchored(db2, seen, p) && SpotOf(db2, p) == SpotOf(db, p)
    && RowOf(db2, p).resolutions == RowOf(db, p).resolutions && RowOf(db, p).resumptions <= RowOf(db2, p).resumptions
  }

  lemma HoldsTrans(a: Db, b: Db, c: Db, seen: set<Identity>)
    requires Holds(a, b, seen) && Holds(b, c, seen)
    ensures Holds(a, c, seen)
  {
    forall p | Anchored(a, seen, p)
      ensures HoldsAt(a, c, seen, p)
    {
      assert HoldsAt(a, b, seen, p) && HoldsAt(b, c, seen, p);
    }
  }

  lemma HoldsWrecked(db: Db, db2: Db, seen: set<Identity>)
    requires Wrecked(db, seen) && Holds(db, db2, seen)
    ensures Wrecked(db2, seen)
  {
    if p, q :| Doubled(db, seen, p, q) {
      assert HoldsAt(db, db2, seen, p) && HoldsAt(db, db2, seen, q);
      assert Doubled(db2, seen, p, q);
    } else {
      var p :| Overdrawn(db, seen, p);
      assert HoldsAt(db, db2, seen, p);
      assert Overdrawn(db2, seen, p);
    }
  }

  lemma AnchoredWider(db: Db, seen: set<Identity>, seen2: set<Identity>, p: Id)
    requires Anchored(db, seen, p) && seen <= seen2
    ensures Anchored(db, seen2, p)
  {
    var e :| e in db.evidence && Sustains(db.evidence[e], p) && db.evidence[e].identity in seen;
    assert db.evidence[e].identity in seen2;
  }

  lemma WreckedWider(db: Db, seen: set<Identity>, seen2: set<Identity>)
    requires Wrecked(db, seen) && seen <= seen2
    ensures Wrecked(db, seen2)
  {
    if p, q :| Doubled(db, seen, p, q) {
      AnchoredWider(db, seen, seen2, p);
      AnchoredWider(db, seen, seen2, q);
      assert Doubled(db, seen2, p, q);
    } else {
      var p :| Overdrawn(db, seen, p);
      AnchoredWider(db, seen, seen2, p);
      assert Overdrawn(db, seen2, p);
    }
  }

  // ----- The statements of a transaction -----

  /** The evidence reported so far still sustains what it sustained. */
  ghost predicate KeepsSeen(evidence: map<Id, Evidence>, evidence2: map<Id, Evidence>, seen: set<Identity>)
  {
    forall e, p :: e in evidence && Sustains(evidence[e], p) && evidence[e].identity in seen ==>
      e in evidence2 && Sustains(evidence2[e], p) && evidence2[e].identity == evidence[e].identity
  }

  lemma KeepsSeenAnchors(db: Db, db2: Db, seen: set<Identity>, p: Id)
    requires Anchored(db, seen, p) && KeepsSeen(db.evidence, db2.evidence, seen) && OpenAt(db2, p)
    ensures Anchored(db2, seen, p)
  {
    var e :| e in db.evidence && Sustains(db.evidence[e], p) && db.evidence[e].identity in seen;
    assert Sustains(db2.evidence[e], p) && db2.evidence[e].identity in seen;
  }

  /** Only evidence changes, and not what was reported. */
  lemma EvidenceHolds(db: Db, db2: Db, seen: set<Identity>)
    requires db2.impacts == db.impacts && KeepsSeen(db.evidence, db2.evidence, seen)
    requires db2.incidents.Keys == db.incidents.Keys
    requires forall i :: i in db.incidents ==> SameCycle(db.incidents[i], db2.incidents[i])
    ensures Holds(db, db2, seen)
  {
    forall p | Anchored(db, seen, p)
      ensures HoldsAt(db, db2, seen, p)
    {
      assert SameCycle(RowOf(db, p), db2.incidents[db.impacts[p].incident]);
      KeepsSeenAnchors(db, db2, seen, p);
    }
  }

  lemma StillHolds(db: Db, db2: Db, seen: set<Identity>)
    requires Still(db, db2)
    ensures Holds(db, db2, seen)
  {
    forall e | e in db.evidence
      ensures SameStanding(db.evidence[e], db2.evidence[e])
      ensures forall p :: Sustains(db.evidence[e], p) == Sustains(db2.evidence[e], p)
    {
      assert SameStanding(db.evidence[e], db2.evidence[e]);
    }
    EvidenceHolds(db, db2, seen);
  }

  lemma ResolveRowsHolds(db: Db, es: set<Id>, seen: set<Identity>, now: Time)
    requires forall e :: e in es && e in db.evidence ==> db.evidence[e].identity !in seen
    ensures Holds(db, ResolveRows(db, es, now), seen)
  {
    EvidenceHolds(db, ResolveRows(db, es, now), seen);
  }

  lemma RelabelledHolds(db: Db, db2: Db, seen: set<Identity>)
    requires Relabelled(db, db2)
    ensures Holds(db, db2, seen)
  {
    forall e | e in db.evidence
      ensures RelabelledRow(db.evidence[e], db2.evidence[e])
      ensures forall p :: Sustains(db.evidence[e], p) == Sustains(db2.evidence[e], p)
    {
      assert RelabelledRow(db.evidence[e], db2.evidence[e]);
    }
    EvidenceHolds(db, db2, seen);
  }

  lemma RecomputeImpactsHolds(db: Db, ps: set<Id>, seen: set<Identity>, now: Time)
    ensures Holds(db, RecomputeImpacts(db, ps, now), seen)
  {
    var db2 := RecomputeImpacts(db, ps, now);
    forall p | Anchored(db, seen, p)
      ensures HoldsAt(db, db2, seen, p)
    {
      DerivedStatus(db.evidence, p, db.impacts[p], now);
      KeepsSeenAnchors(db, db2, seen, p);
    }
  }

  /** An incident with an active impact is not resolved by its recomputation. */
  lemma AggregatedHolds(evidence: map<Id, Evidence>, impacts: map<Id, Impact>, live: int, i: Id, row: Incident,
      now: Time)
    requires ActiveOf(impacts, i) != {}
    ensures var row2 := WithSync(evidence, i, Aggregated(impacts, live, i, row, now));
      row2.resolutions == row.resolutions && row2.resumptions == row.resumptions && row2.nature == row.nature
  {
  }

  lemma RecomputeIncidentsHolds(db: Db, ns: set<Id>, seen: set<Identity>, now: Time)
    ensures Holds(db, RecomputeIncidents(db, ns, now), seen)
  {
    hide Aggregated, WithSync;
    var db2 := RecomputeIncidents(db, ns, now);
    forall p | Anchored(db, seen, p)
      ensures HoldsAt(db, db2, seen, p)
    {
      var i := db.impacts[p].incident;
      assert p in ActiveOf(db.impacts, i);
      AggregatedHolds(db.evidence, db.impacts, LiveTargetCount(db.targets), i, db.incidents[i], now);
      KeepsSeenAnchors(db, db2, seen, p);
    }
  }

  lemma SettleHolds(db: Db, ps: set<Id>, ns: set<Id>, seen: set<Identity>, now: Time)
    ensures Holds(db, Settle(db, ps, ns, now), seen)
  {
    RecomputeImpactsHolds(db, ps, seen, now);
    RecomputeIncidentsHolds(RecomputeImpacts(db, ps, now), ns, seen, now);
    HoldsTrans(db, RecomputeImpacts(db, ps, now), Settle(db, ps, ns, now), seen);
  }

  lemma RetireHolds(db: Db, e: Id, seen: set<Identity>, now: Time)
    requires e in db.evidence && db.evidence[e].identity !in seen
    ensures Holds(db, Retire(db, e, now), seen)
  {
    var closed := ResolveRows(db, {e}, now);
    ResolveRowsHolds(db, {e}, seen, now);
    SettleHolds(closed, {db.evidence[e].impact}, {db.evidence[e].incident}, seen, now);
    HoldsTrans(db, closed, Retire(db, e, now), seen);
  }

  // ----- Opening an impact -----

  /** Open impacts stay where they are; incidents only gain resumptions. */
  ghost predicate Grows(db: Db, db2: Db)
  {
    && db2.evidence == db.evidence
    && (forall p :: OpenAt(db, p) ==>
          && OpenAt(db2, p) && db2.impacts[p].incident == db.impacts[p].incident
          && db2.impacts[p].target == db.impacts[p].target)
    && (forall i :: i in db.incidents ==>
          && i in db2.incidents && db2.incidents[i].nature == db.incidents[i].nature
          && db2.incidents[i].resolutions == db.incidents[i].resolutions && db.incidents[i].resumptions <= db2.incidents[i].resumptions)
  }

  lemma GrowsHolds(db: Db, db2: Db, seen: set<Identity>)
    requires Grows(db, db2)
    ensures Holds(db, db2, seen)
  {
    forall p | Anchored(db, seen, p)
      ensures HoldsAt(db, db2, seen, p)
    {
      KeepsSeenAnchors(db, db2, seen, p);
    }
  }

  lemma JoinGrows(db: Db, i: Id, f: Fact)
    requires Shape(db) && ValidSeverity(f.severity) && i in db.incidents
    ensures Grows(db, Join(db, i, f).db)
  {
    hide Rejoin, Spread, Grows;
    match ImpactOn(db.impacts, i, f.target)
    case Some(p) => RejoinGrows(db, i, p, f);
    case None => SpreadGrows(db, i, f);
  }

  lemma RejoinGrows(db: Db, i: Id, p: Id, f: Fact)
    requires ValidSeverity(f.severity) && i in db.incidents && p in db.impacts
    ensures Grows(db, Rejoin(db, i, p, f).db)
  {
    hide EvidenceWindow;
  }

  lemma SpreadGrows(db: Db, i: Id, f: Fact)
    requires Shape(db) && ValidSeverity(f.severity) && i in db.incidents
    ensures Grows(db, Spread(db, i, f).db)
  {
    hide EvidenceWindow, ImpactRow, IncidentRow, EvidenceRow;
  }

  lemma ResumeGrows(db: Db, p: Id, f: Fact, now: Time)
    requires ValidSeverity(f.severity) && p in db.impacts && db.impacts[p].incident in db.incidents
    ensures Grows(db, Resume(db, p, f, now).db)
  {
  }

  lemma CreateGrows(db: Db, f: Fact, now: Time)
    requires Shape(db) && ValidSeverity(f.severity)
    ensures Grows(db, Create(db, f, now).db)
  {
    hide EvidenceWindow, ImpactRow, IncidentRow, EvidenceRow;
  }

  lemma OpenImpactGrows(db: Db, f: Fact, now: Time)
    requires Shape(db) && Linked(db) && ValidSeverity(f.severity)
    ensures Grows(db, OpenImpact(db, f, now).db)
  {
    hide Join, Resume, Create, Shape;
    match ActiveImpact(db, f)
    case Some(p) =>
    case None =>
      match PropagatingIncident(db, f)
      case Some(i) => JoinGrows(db, i, f);
      case None =>
        match ResumableImpact(db, f, now)
        case Some(p) => ResumeGrows(db, p, f, now);
        case None => CreateGrows(db, f, now);
  }

  lemma InsertEvidenceHolds(db: Db, f: Fact, i: Id, p: Id, seen: set<Identity>)
    requires Shape(db) && Linked(db) && ValidSeverity(f.severity) && i in db.incidents
    ensures Holds(db, InsertEvidence(db, f, i, p), seen)
  {
    hide ImpactRow, IncidentRow, EvidenceRow;
    InsertEvidenceSame(db, f, i, p);
    EvidenceHolds(db, InsertEvidence(db, f, i, p), seen);
  }

  lemma AddEvidenceHolds(db: Db, f: Fact, i: Id, p: Id, seen: set<Identity>, now: Time)
    requires Shape(db) && Linked(db) && ValidSeverity(f.severity) && i in db.incidents
    ensures Holds(db, AddEvidence(db, f, i, p, now), seen)
  {
    var added := InsertEvidence(db, f, i, p);
    InsertEvidenceHolds(db, f, i, p, seen);
    if f.upstream {
      AckFromEvidenceOnly(added, i, now);
      AckOnlyStill(added, AddEvidence(db, f, i, p, now));
      StillHolds(added, AddEvidence(db, f, i, p, now), seen);
      HoldsTrans(db, added, AddEvidence(db, f, i, p, now), seen);
    }
  }

  lemma OpenFactHolds(db: Db, f: Fact, seen: set<Identity>, now: Time)
    requires Shape(db) && Linked(db) && ValidSeverity(f.severity) && !OpenFact(db, f, now).Failed?
    ensures Holds(db, OpenFact(db, f, now).db, seen)
  {
    hide Shape, Holds, OpenImpact, AddEvidence;
    SelfHolds(db, seen);
    if OpenFact(db, f, now).Touched? {
      var o := OpenImpact(db, f, now);
      OpenImpactShape(db, f, now);
      OpenImpactGrows(db, f, now);
      GrowsHolds(db, o.db, seen);
      AddEvidenceHolds(o.db, f, o.incident, o.impact, seen, now);
      HoldsTrans(db, o.db, AddEvidence(o.db, f, o.incident, o.impact, now), seen);
    }
  }

  lemma SelfHolds(db: Db, seen: set<Identity>)
    ensures Holds(db, db, seen)
  {
  }

  lemma ApplyFactHolds(db: Db, f: Fact, seen: set<Identity>, now: Time)
    requires Shape(db) && Linked(db) && f.identity !in seen && !ApplyFact(db, f, now).Failed?
    ensures Holds(db, ApplyFact(db, f, now).db, seen)
  {
    hide Shape, Holds, OpenFact, Refresh, Retire;
    SelfHolds(db, seen);
    match ActiveRow(db.evidence, f.identity)
    case None => OpenFactHolds(db, f, seen, now);
    case Some(e) =>
      var row := db.evidence[e];
      if row.invalidatedAt.Some? {
      } else if row.target == f.target && db.incidents[row.incident].nature.key == f.nature.key {
        RefreshStill(db, e, f, now);
        StillHolds(db, Refresh(db, e, f, now), seen);
      } else {
        var db1 := Retire(db, e, now);
        RetireShape(db, e, now);
        RetireHolds(db, e, seen, now);
        OpenFactHolds(db1, f, seen, now);
        HoldsTrans(db, db1, OpenFact(db1, f, now).db, seen);
      }
  }

  lemma {:induction false} ApplyFactsWrecked(pass: Pass, facts: seq<Fact>, now: Time)
    requires PassOk(pass) && Linked(pass.db) && Wrecked(pass.db, pass.seen) && ApplyFacts(pass, facts, now).Ok?
    ensures var out := ApplyFacts(pass, facts, now).value; Wrecked(out.db, out.seen)
    decreases |facts|
  {
    hide Wrecked, ApplyFact, Partial;
    if facts != [] {
      ApplyOneOk(pass, facts[0], now);
      ApplyOneWrecked(pass, facts[0], now);
      ApplyFactsWrecked(ApplyOne(pass, facts[0], now).value, facts[1..], now);
    }
  }

  lemma ApplyOneWrecked(pass: Pass, f: Fact, now: Time)
    requires PassOk(pass) && Linked(pass.db) && Wrecked(pass.db, pass.seen) && ApplyOne(pass, f, now).Ok?
    ensures var mid := ApplyOne(pass, f, now).value; Wrecked(mid.db, mid.seen)
  {
    hide Wrecked, ApplyFact, Holds;
    if f.identity !in pass.seen {
      var mid := ApplyOne(pass, f, now).value;
      ApplyFactHolds(pass.db, f, pass.seen, now);
      HoldsWrecked(pass.db, mid.db, pass.seen);
      WreckedWider(mid.db, pass.seen, mid.seen);
    }
  }

  lemma FinishHolds(pass: Pass, s: Snapshot)
    ensures Holds(pass.db, Finish(pass, s), pass.seen)
  {
    hide Holds, Settle, ResolveRows, Rearm, AdvanceDue;
    var now := s.observedAt;
    var gone := Gone(pass.db, s, pass.seen);
    var ps, ns := pass.impacts + ImpactsTouching(pass.db, gone), pass.incidents + IncidentsTouching(pass.db, gone);
    var closed := ResolveRows(pass.db, gone, now);
    var rearmed := Rearm(closed, s, pass.seen, now);
    var settled := Settle(rearmed, ps, ns, now);
    ResolveRowsHolds(pass.db, gone, pass.seen, now);
    RearmRelabels(closed, s, pass.seen, now);
    RelabelledHolds(closed, rearmed, pass.seen);
    SettleHolds(rearmed, ps, ns, pass.seen, now);
    AdvanceHolds(settled, pass.seen, now);
    HoldsTrans(pass.db, closed, rearmed, pass.seen);
    HoldsTrans(pass.db, rearmed, settled, pass.seen);
    HoldsTrans(pass.db, settled, Finish(pass, s), pass.seen);
  }

  lemma AdvanceHolds(db: Db, seen: set<Identity>, now: Time)
    ensures Holds(db, AdvanceDue(db, now), seen)
  {
    RecomputeIncidentsHolds(db, Due(db, now), seen, now);
  }

  // ----- A collision wrecks -----

  /** A stale impact is sustained by evidence the snapshot has reported. */
  lemma StaleIsAnchored(db: Db, p: Id, done: set<Spot>, seen: set<Identity>)
    requires Flow(db, done, seen) && Shape(db) && OpenAt(db, p) && RowOf(db, p).status == Resolved
    ensures Anchored(db, seen, p)
  {
    var e :| e in db.evidence && Sustains(db.evidence[e], p);
    assert db.evidence[e].incident == db.impacts[p].incident;
  }

  /** The impact a colliding fact opens is another one on the same spot, or the stale one resumed once more. */
  ghost predicate Clashes(db: Db, o: Opened, p: Id)
    requires OpenAt(db, p)
  {
    && OpenAt(o.db, o.impact) && SpotOf(o.db, o.impact) == SpotOf(db, p)
    && (o.impact == p ==> RowOf(o.db, p).resumptions == RowOf(db, p).resumptions + 1)
  }

  lemma CollidingImpact(db: Db, f: Fact, p: Id, keyOf: KeyOf, now: Time)
    requires Shape(db) && Linked(db) && ValidSeverity(f.severity) && OnePerNature(db)
    requires Coherent(db, keyOf) && CoherentNature(f.nature, keyOf)
    requires OpenAt(db, p) && SpotOf(db, p) == FactSpot(f) && RowOf(db, p).status == Resolved
    ensures Clashes(db, OpenImpact(db, f, now), p)
  {
    hide Join, Resume, Create, Shape, Clashes;
    match ActiveImpact(db, f)
    case Some(q) => HostedIsNotStale(db, f, p, q);
    case None =>
      match PropagatingIncident(db, f)
      case Some(i) => CollidingJoin(db, i, f, p, keyOf);
      case None =>
        match ResumableImpact(db, f, now)
        case Some(q) => CollidingResume(db, q, f, p, now);
        case None => CollidingCreate(db, f, p, now);
  }

  lemma HostedIsNotStale(db: Db, f: Fact, p: Id, q: Id)
    requires OnePerNature(db) && OpenAt(db, p) && SpotOf(db, p) == FactSpot(f) && Hosts(db, q, f.target, f.nature.key)
    ensures p == q
  {
    assert SpotOf(db, q) == SpotOf(db, p);
  }

  lemma CollidingJoin(db: Db, i: Id, f: Fact, p: Id, keyOf: KeyOf)
    requires Shape(db) && ValidSeverity(f.severity) && i in db.incidents && Propagates(db.incidents[i], f) && f.nature.eligible
    requires Coherent(db, keyOf) && CoherentNature(f.nature, keyOf)
    requires OpenAt(db, p) && SpotOf(db, p) == FactSpot(f) && RowOf(db, p).status == Resolved
    ensures Clashes(db, Join(db, i, f), p)
  {
    hide Join, Shape;
    assert CoherentNature(db.incidents[i].nature, keyOf);
    JoinOpens(db, i, f);
  }

  lemma CollidingResume(db: Db, q: Id, f: Fact, p: Id, now: Time)
    requires ValidSeverity(f.severity) && Bears(db, q, f.target, f.nature.key)
    requires OpenAt(db, p) && SpotOf(db, p) == FactSpot(f)
    ensures Clashes(db, Resume(db, q, f, now), p)
  {
  }

  lemma CollidingCreate(db: Db, f: Fact, p: Id, now: Time)
    requires Shape(db) && ValidSeverity(f.severity) && OpenAt(db, p) && SpotOf(db, p) == FactSpot(f)
    ensures Clashes(db, Create(db, f, now), p)
  {
    hide EvidenceWindow, ImpactRow, IncidentRow, EvidenceRow;
  }

  lemma AddedAnchors(db: Db, f: Fact, i: Id, p: Id, seen: set<Identity>, now: Time)
    requires Shape(db) && Linked(db) && ValidSeverity(f.severity) && i in db.incidents && OpenAt(db, p)
    ensures Anchored(InsertEvidence(db, f, i, p), seen + {f.identity}, p)
  {
    var db2 := InsertEvidence(db, f, i, p);
    assert Sustains(db2.evidence[db.next], p) && db2.evidence[db.next].identity in seen + {f.identity};
  }

  lemma AddEvidenceAnchors(db: Db, f: Fact, i: Id, p: Id, seen: set<Identity>, now: Time)
    requires Shape(db) && Linked(db) && ValidSeverity(f.severity) && i in db.incidents && OpenAt(db, p)
    ensures var db2 := AddEvidence(db, f, i, p, now);
      && Anchored(db2, seen + {f.identity}, p) && SpotOf(db2, p) == SpotOf(db, p)
      && RowOf(db2, p).resumptions >= RowOf(db, p).resumptions
  {
    hide AckFromEvidence, Anchored, Shape, Linked;
    var added, db2 := InsertEvidence(db, f, i, p), AddEvidence(db, f, i, p, now);
    AddedAnchors(db, f, i, p, seen, now);
    InsertEvidenceSame(db, f, i, p);
    assert SameCycle(db.incidents[db.impacts[p].incident], added.incidents[db.impacts[p].incident]);
    SelfHolds(added, seen + {f.identity});
    if f.upstream {
      AckFromEvidenceOnly(added, i, now);
      AckOnlyStill(added, db2);
      StillHolds(added, db2, seen + {f.identity});
    }
    assert HoldsAt(added, db2, seen + {f.identity}, p);
  }

  lemma CollisionWrecks(db: Db, f: Fact, done: set<Spot>, seen: set<Identity>, keyOf: KeyOf, now: Time)
    requires Flow(db, done, seen) && Shape(db) && Linked(db) && ValidSeverity(f.severity) && OnePerNature(db)
    requires Coherent(db, keyOf) && CoherentNature(f.nature, keyOf) && Collides(db, f)
    ensures var r := OpenFact(db, f, now); !r.Failed? && Wrecked(r.db, seen + {f.identity})
  {
    hide Shape, Flow, Linked, OpenImpact, AddEvidence, Anchored, OnePerNature, Coherent;
    var p :| OpenAt(db, p) && SpotOf(db, p) == FactSpot(f) && RowOf(db, p).status == Resolved;
    var o := OpenImpact(db, f, now);
    var db2, seen2 := AddEvidence(o.db, f, o.incident, o.impact, now), seen + {f.identity};
    StaleIsAnchored(db, p, done, seen);
    StaleIsBalanced(db, p, done, seen);
    CollidingImpact(db, f, p, keyOf, now);
    OpenImpactShape(db, f, now);
    OpenFactHolds(db, f, seen, now);
    assert HoldsAt(db, db2, seen, p);
    AnchoredWider(db2, seen, seen2, p);
    AddEvidenceAnchors(o.db, f, o.incident, o.impact, seen, now);
    if o.impact == p {
      assert Overdrawn(db2, seen2, p);
    } else {
      assert Doubled(db2, seen2, p, o.impact);
    }
  }

  lemma StaleIsBalanced(db: Db, p: Id, done: set<Spot>, seen: set<Identity>)
    requires Flow(db, done, seen) && OpenAt(db, p)
    ensures RowOf(db, p).resolutions == RowOf(db, p).resumptions
  {
    assert p in ActiveOf(db.impacts, db.impacts[p].incident);
    assert Balanced(db.impacts, db.impacts[p].incident, RowOf(db, p));
  }

  lemma FactCollisionWrecks(db: Db, f: Fact, done: set<Spot>, seen: set<Identity>, keyOf: KeyOf, now: Time)
    requires Flow(db, done, seen) && Shape(db) && Linked(db) && OnePerNature(db) && f.identity !in seen
    requires Coherent(db, keyOf) && CoherentNature(f.nature, keyOf) && FactCollides(db, f, now)
    ensures var r := ApplyFact(db, f, now); !r.Failed? && Wrecked(r.db, seen + {f.identity})
  {
    hide Flow, Shape, OnePerNature, Coherent, Wrecked, OpenFact, Collides;
    match ActiveRow(db.evidence, f.identity)
    case None => CollisionWrecks(db, f, done, seen, keyOf, now);
    case Some(e) =>
      var db1 := Retire(db, e, now);
      RetireShape(db, e, now);
      RetireFlow(db, e, done, seen, now);
      RetireOrderly(db, e, keyOf, now);
      OrderlyParts(db, db1, keyOf);
      CollisionWrecks(db1, f, done, seen, keyOf, now);
  }

  lemma OrderlyParts(db: Db, db2: Db, keyOf: KeyOf)
    requires Orderly(db, db2, keyOf) && OnePerNature(db)
    ensures OnePerNature(db2) && Coherent(db2, keyOf)
  {
  }

  // ----- The exact condition -----

  lemma {:induction false} PassCollisionWrecks(pass: Pass, facts: seq<Fact>, done: set<Spot>, keyOf: KeyOf, now: Time)
    requires PassOk(pass) && Linked(pass.db) && Flow(pass.db, done, pass.seen) && Coherent(pass.db, keyOf) && OnePerNature(pass.db)
    requires CoherentFacts(facts, keyOf) && PassCollides(pass, facts, now) && ApplyFacts(pass, facts, now).Ok?
    ensures var out := ApplyFacts(pass, facts, now).value; Wrecked(out.db, out.seen)
    decreases |facts|
  {
    hide Flow, Shape, OnePerNature, Coherent, Wrecked, ApplyFact, FactCollides, Orderly;
    var f, mid := facts[0], ApplyOne(pass, facts[0], now).value;
    assert CoherentNature(f.nature, keyOf);
    ApplyOneOk(pass, f, now);
    if f.identity !in pass.seen && FactCollides(pass.db, f, now) {
      FactCollisionWrecks(pass.db, f, done, pass.seen, keyOf, now);
      ApplyFactsWrecked(mid, facts[1..], now);
    } else {
      ApplyOneFlow(pass, f, done, keyOf, now);
      OrderlyParts(pass.db, mid.db, keyOf);
      PassCollisionWrecks(mid, facts[1..], SpotsAfter(pass, f, done), keyOf, now);
    }
  }

  /**
   * A snapshot keeps impacts unique and resumptions balanced if and only if none of its facts reaches a spot
   * whose incident an earlier fact of the same snapshot has resumed.
   */
  lemma SnapshotKeepsExactly(db: Db, s: Snapshot, keyOf: KeyOf)
    requires Inv(db) && Linked(db) && AllBalanced(db) && OnePerNature(db) && Coherent(db, keyOf)
    requires CoherentFacts(Prepared(s), keyOf) && ApplySnapshot(db, s).Ok?
    ensures var db2 := ApplySnapshot(db, s).value;
      OnePerNature(db2) && AllBalanced(db2) <==> !SnapshotCollides(db, s)
  {
    if SnapshotCollides(db, s) {
      SnapshotWrecks(db, s, keyOf);
    } else {
      SnapshotKeeps(db, s, keyOf);
    }
  }

  lemma SnapshotWrecks(db: Db, s: Snapshot, keyOf: KeyOf)
    requires Inv(db) && Linked(db) && AllBalanced(db) && OnePerNature(db) && Coherent(db, keyOf)
    requires CoherentFacts(Prepared(s), keyOf) && ApplySnapshot(db, s).Ok? && SnapshotCollides(db, s)
    ensures var db2 := ApplySnapshot(db, s).value; !(OnePerNature(db2) && AllBalanced(db2))
  {
    hide Finish, Wrecked, Holds, ApplyFacts, PassCollides, Shape, OnePerNature;
    var pass := Pass(db, {}, {}, {});
    FlowStarts(db);
    PassCollisionWrecks(pass, Prepared(s), {}, keyOf, s.observedAt);
    var out := ApplyFacts(pass, Prepared(s), s.observedAt).value;
    FinishHolds(out, s);
    HoldsWrecked(out.db, Finish(out, s), out.seen);
    WreckedBreaks(Finish(out, s), out.seen);
  }
}
