/** When a snapshot resumes an incident that it finds active, told from the tables and the snapshot before it is applied. */
module IncidentHandovers {
  import opened Common
  import opened IncidentModel
  import opened IncidentCycle
  import opened IncidentSnapshot
  import opened IncidentInvariants
  import opened IncidentAggregates
  import opened IncidentIdentities
  import opened IncidentAcknowledgement
  import opened IncidentPlacement
  import opened IncidentTransactions
  import opened IncidentRuns
  import opened IncidentEvolution
  import opened IncidentJoins
  import opened IncidentSequence
  import opened IncidentUniqueness
  import opened IncidentResumptions

  // ----- The condition -----

  /** Position `k` is the first to report its identity. */
  predicate FirstReport(facts: seq<Fact>, k: nat)
  {
    k < |facts| && forall j :: 0 <= j < k ==> facts[j].identity != facts[k].identity
  }

  /** The report at position `k` takes row `e` elsewhere. */
  predicate Moves(db: Db, facts: seq<Fact>, k: nat, e: Id)
    requires Linked(db)
  {
    FirstReport(facts, k) && e in db.evidence && facts[k].identity == db.evidence[e].identity && !Agrees(db, e, facts[k])
  }

  ghost predicate MovedBefore(db: Db, facts: seq<Fact>, l: nat, e: Id)
    requires Linked(db)
  {
    exists k: nat :: k < l && Moves(db, facts, k, e)
  }

  /** Incident `i` is active through one impact only, at `spot`, and its window is over. */
  ghost predicate AboutToEnd(db: Db, i: Id, spot: Spot, now: Time)
  {
    && i in db.incidents && db.incidents[i].status == Active
    && (db.incidents[i].propagation == Closed || db.incidents[i].endsAt <= now)
    && exists p :: ImpactsOf(db.impacts, i) == {p} && OpenAt(db, p) && SpotOf(db, p) == spot
  }

  /** No incident of the spot opened after incident `i`. */
  ghost predicate LatestAt(db: Db, i: Id, spot: Spot)
    requires i in db.incidents
  {
    forall q :: q in db.impacts && Bears(db, q, spot.target, spot.nature) ==>
      db.incidents[db.impacts[q].incident].openedAt <= db.incidents[i].openedAt
  }

  /**
   * All evidence of incident `i` is reported elsewhere before position `l`, and the fact there, new to the spot, may take
   * its place.
   */
  ghost predicate HandedOver(db: Db, facts: seq<Fact>, now: Time, i: Id, l: nat)
    requires Linked(db)
  {
    && FirstReport(facts, l) && AboutToEnd(db, i, FactSpot(facts[l]), now) && LatestAt(db, i, FactSpot(facts[l]))
    && (forall e :: e in db.evidence && db.evidence[e].active && db.evidence[e].incident == i ==> MovedBefore(db, facts, l, e))
    && !Suppressed(db.evidence, facts[l].identity) && IsLive(db.targets, facts[l].target)
    && facts[l].openedAt - RESUMPTION_WINDOW <= now
  }

  // ----- The tables in the middle of a pass -----

  /** Impacts stay where they are. */
  ghost predicate KeepsPlaces(db: Db, db2: Db)
  {
    forall p :: p in db.impacts ==>
      p in db2.impacts && db2.impacts[p].incident == db.impacts[p].incident && db2.impacts[p].target == db.impacts[p].target
  }

  lemma OpenImpactKeepsPlaces(db: Db, f: Fact, now: Time)
    requires Shape(db) && Linked(db) && ValidSeverity(f.severity)
    ensures KeepsPlaces(db, OpenImpact(db, f, now).db)
  {
    hide Join, Resume, Create, Shape, Hosts, Propagates, KeepsPlaces;
    match ActiveImpact(db, f)
    case Some(p) => PlacesSelf(db);
    case None =>
      match PropagatingIncident(db, f)
      case Some(i) => JoinKeepsPlaces(db, i, f);
      case None =>
        match ResumableImpact(db, f, now)
        case Some(p) => ResumeKeepsPlaces(db, p, f, now);
        case None => CreateKeepsPlaces(db, f, now);
  }

  lemma PlacesSelf(db: Db)
    ensures KeepsPlaces(db, db)
  {
  }

  lemma JoinKeepsPlaces(db: Db, i: Id, f: Fact)
    requires Shape(db) && ValidSeverity(f.severity) && i in db.incidents
    ensures KeepsPlaces(db, Join(db, i, f).db)
  {
    hide EvidenceWindow, Slid, ImpactRow, EvidenceRow, IncidentRow;
  }

  lemma ResumeKeepsPlaces(db: Db, p: Id, f: Fact, now: Time)
    requires ValidSeverity(f.severity) && p in db.impacts && db.impacts[p].incident in db.incidents
    ensures KeepsPlaces(db, Resume(db, p, f, now).db)
  {
  }

  lemma CreateKeepsPlaces(db: Db, f: Fact, now: Time)
    requires Shape(db) && ValidSeverity(f.severity)
    ensures KeepsPlaces(db, Create(db, f, now).db)
  {
    hide EvidenceWindow, ImpactRow, EvidenceRow, IncidentRow;
  }

  lemma OpenFactKeepsPlaces(db: Db, f: Fact, now: Time)
    requires Shape(db) && Linked(db) && ValidSeverity(f.severity)
    ensures var r := OpenFact(db, f, now); !r.Failed? ==> KeepsPlaces(db, r.db)
  {
    hide OpenImpact, AddEvidence, Shape;
    if OpenFact(db, f, now).Touched? {
      var o := OpenImpact(db, f, now);
      OpenImpactKeepsPlaces(db, f, now);
      AddEvidencePlaces(o.db, f, o.incident, o.impact, now);
    }
  }

  lemma ApplyFactKeepsPlaces(db: Db, f: Fact, now: Time)
    requires Shape(db) && Linked(db)
    ensures var r := ApplyFact(db, f, now); !r.Failed? ==> KeepsPlaces(db, r.db)
  {
    hide OpenFact, Refresh, Retire, Shape;
    if Complete(f) {
      match ActiveRow(db.evidence, f.identity)
      case None => OpenFactKeepsPlaces(db, f, now);
      case Some(e) =>
        if Agrees(db, e, f) {
          RefreshStill(db, e, f, now);
        } else {
          RetireShape(db, e, now);
          RetirePlaces(db, e, now);
          OpenFactKeepsPlaces(Retire(db, e, now), f, now);
        }
    }
  }

  /** A fact closes no row that is where it says. */
  lemma AgreedStaysActive(db: Db, f: Fact, e: Id, now: Time)
    requires Shape(db) && Linked(db) && Identities(db) && !ApplyFact(db, f, now).Failed?
    requires e in db.evidence && db.evidence[e].active && db.evidence[e].identity == f.identity && Agrees(db, e, f)
    ensures var db2 := ApplyFact(db, f, now).db; e in db2.evidence && db2.evidence[e].active
  {
    hide Refresh, OpenFact, Retire;
    assert ActiveRow(db.evidence, f.identity) == Some(e);
    assert EvidenceRow(db.evidence[e]);
    RefreshStandings(db, e, f, now);
    assert SameStanding(db.evidence[e], Refresh(db, e, f, now).evidence[e]);
  }

  ghost predicate SameSuppressions(db: Db, db2: Db)
  {
    forall id :: Suppressed(db2.evidence, id) <==> Suppressed(db.evidence, id)
  }

  /** What remains of the row `e` of `db` before position `k`: untouched, or reported and where it was, or moved. */
  ghost predicate RowTracked(db: Db, facts: seq<Fact>, k: nat, mid: Db, seen: set<Identity>, e: Id)
    requires Linked(db) && e in db.evidence
  {
    && e in mid.evidence && mid.evidence[e].incident == db.evidence[e].incident && mid.evidence[e].identity == db.evidence[e].identity
    && (db.evidence[e].identity !in seen ==> SameStanding(db.evidence[e], mid.evidence[e]))
    && (!mid.evidence[e].active ==> MovedBefore(db, facts, k, e))
  }

  /** The identities reported before position `k`. */
  ghost predicate SeenBefore(facts: seq<Fact>, k: nat, seen: set<Identity>)
    requires k <= |facts|
  {
    && (forall j :: 0 <= j < k ==> facts[j].identity in seen)
    && (forall id :: id in seen ==> exists j :: 0 <= j < k && facts[j].identity == id)
  }

  lemma SeenStep(facts: seq<Fact>, k: nat, seen: set<Identity>)
    requires k < |facts| && SeenBefore(facts, k, seen)
    ensures SeenBefore(facts, k + 1, seen + {facts[k].identity})
  {
    forall id | id in seen + {facts[k].identity}
      ensures exists j :: 0 <= j < k + 1 && facts[j].identity == id
    {
      if id in seen {
        var j :| 0 <= j < k && facts[j].identity == id;
        assert 0 <= j < k + 1;
      }
    }
  }

  /** The pass stands before position `k`; `db` are the tables it started from. */
  ghost predicate Tracks(db: Db, facts: seq<Fact>, k: nat, pass: Pass, now: Time)
    requires Linked(db)
  {
    && k <= |facts| && SeenBefore(facts, k, pass.seen)
    && Evolves(db, pass.db, now) && KeepsPlaces(db, pass.db) && pass.db.targets == db.targets && SameSuppressions(db, pass.db)
    && (forall e :: e in db.evidence && db.evidence[e].active ==> RowTracked(db, facts, k, pass.db, pass.seen, e))
    && (forall e :: e in pass.db.evidence && pass.db.evidence[e].active && pass.db.evidence[e].identity !in pass.seen ==>
          e in db.evidence && db.evidence[e].active)
  }

  lemma TracksStart(db: Db, facts: seq<Fact>, now: Time)
    requires Linked(db)
    ensures Tracks(db, facts, 0, Pass(db, {}, {}, {}), now)
  {
    EvolvesRefl(db, now);
  }

  lemma UnseenIsFirst(db: Db, facts: seq<Fact>, k: nat, pass: Pass, now: Time)
    requires Linked(db) && Tracks(db, facts, k, pass, now) && k < |facts| && facts[k].identity !in pass.seen
    ensures FirstReport(facts, k)
  {
  }

  lemma AgreesAsBefore(db: Db, mid: Db, e: Id, f: Fact, now: Time)
    requires Linked(db) && Linked(mid) && Evolves(db, mid, now) && e in db.evidence && e in mid.evidence
    requires SameStanding(db.evidence[e], mid.evidence[e])
    ensures Agrees(mid, e, f) <==> Agrees(db, e, f)
  {
    var i := db.evidence[e].incident;
    assert IncidentEvolves(db.incidents[i], mid.incidents[i], now);
  }

  lemma MovedLater(db: Db, facts: seq<Fact>, k: nat, l: nat, e: Id)
    requires Linked(db) && MovedBefore(db, facts, k, e) && k <= l
    ensures MovedBefore(db, facts, l, e)
  {
    var j: nat :| j < k && Moves(db, facts, j, e);
    assert j < l;
  }

  lemma RowTrackedStep(db: Db, facts: seq<Fact>, k: nat, pass: Pass, now: Time, e: Id)
    requires Linked(db) && Shape(pass.db) && Identities(pass.db) && Linked(pass.db) && Tracks(db, facts, k, pass, now)
    requires k < |facts| && facts[k].identity !in pass.seen && !ApplyFact(pass.db, facts[k], now).Failed?
    requires e in db.evidence && db.evidence[e].active
    ensures RowTracked(db, facts, k + 1, ApplyFact(pass.db, facts[k], now).db, pass.seen + {facts[k].identity}, e)
  {
    hide ApplyFact, Evolves, Shape, Identities, Agrees, KeepsPlaces, SameSuppressions, FirstReport;
    var f, mid2 := facts[k], ApplyFact(pass.db, facts[k], now).db;
    ApplyFactOutcome(pass.db, f, now);
    assert RowTracked(db, facts, k, pass.db, pass.seen, e);
    if !pass.db.evidence[e].active {
      MovedLater(db, facts, k, k + 1, e);
    } else if db.evidence[e].identity == f.identity && !mid2.evidence[e].active {
      AgreesAsBefore(db, pass.db, e, f, now);
      if Agrees(db, e, f) {
        AgreedStaysActive(pass.db, f, e, now);
      }
      UnseenIsFirst(db, facts, k, pass, now);
      assert Moves(db, facts, k, e);
    }
  }

  lemma TracksStep(db: Db, facts: seq<Fact>, k: nat, pass: Pass, now: Time)
    requires Linked(db) && Shape(pass.db) && Identities(pass.db) && Linked(pass.db) && Tracks(db, facts, k, pass, now)
    requires k < |facts| && ApplyOne(pass, facts[k], now).Ok?
    ensures Tracks(db, facts, k + 1, ApplyOne(pass, facts[k], now).value, now)
  {
    hide ApplyFact, Evolves, Shape, Identities, KeepsPlaces, RowTracked, SameSuppressions, SeenBefore, Others;
    SeenStep(facts, k, pass.seen);
    assert facts[k].identity in pass.seen ==> pass.seen + {facts[k].identity} == pass.seen;
    var f, mid := facts[k], ApplyOne(pass, facts[k], now).value;
    if f.identity in pass.seen {
      forall e | e in db.evidence && db.evidence[e].active
        ensures RowTracked(db, facts, k + 1, pass.db, pass.seen, e)
      {
        TrackedLater(db, facts, k, pass, e);
      }
    } else {
      ApplyFactOutcome(pass.db, f, now);
      ApplyFactEvolves(pass.db, f, now);
      EvolvesTrans(db, pass.db, mid.db, now);
      ApplyFactKeepsPlaces(pass.db, f, now);
      PlacesTrans(db, pass.db, mid.db);
      OthersSuppress(db, pass.db, mid.db, f.identity);
      forall e | e in db.evidence && db.evidence[e].active
        ensures RowTracked(db, facts, k + 1, mid.db, mid.seen, e)
      {
        RowTrackedStep(db, facts, k, pass, now, e);
      }
      NewRowsAreSeen(db, pass, f, mid);
    }
  }

  lemma TrackedLater(db: Db, facts: seq<Fact>, k: nat, pass: Pass, e: Id)
    requires Linked(db) && e in db.evidence && RowTracked(db, facts, k, pass.db, pass.seen, e)
    ensures RowTracked(db, facts, k + 1, pass.db, pass.seen, e)
  {
    if !pass.db.evidence[e].active {
      MovedLater(db, facts, k, k + 1, e);
    }
  }

  lemma PlacesTrans(a: Db, b: Db, c: Db)
    requires KeepsPlaces(a, b) && KeepsPlaces(b, c)
    ensures KeepsPlaces(a, c)
  {
  }

  lemma OthersSuppress(db: Db, mid: Db, mid2: Db, id: Identity)
    requires SameSuppressions(db, mid) && Others(mid.evidence, mid2.evidence, id)
    ensures SameSuppressions(db, mid2)
  {
    forall x
      ensures Suppressed(mid2.evidence, x) <==> Suppressed(mid.evidence, x)
    {
      if e :| e in mid.evidence && Unarmed(mid.evidence[e]) && mid.evidence[e].identity == x {
        assert e in mid2.evidence && Unarmed(mid2.evidence[e]);
      }
      if e :| e in mid2.evidence && Unarmed(mid2.evidence[e]) && mid2.evidence[e].identity == x {
        assert e in mid.evidence;
      }
    }
  }

  lemma NewRowsAreSeen(db: Db, pass: Pass, f: Fact, mid: Pass)
    requires Others(pass.db.evidence, mid.db.evidence, f.identity) && mid.seen == pass.seen + {f.identity}
    requires forall e :: e in pass.db.evidence && pass.db.evidence[e].active && pass.db.evidence[e].identity !in pass.seen ==>
      e in db.evidence && db.evidence[e].active
    ensures forall e :: e in mid.db.evidence && mid.db.evidence[e].active && mid.db.evidence[e].identity !in mid.seen ==>
      e in db.evidence && db.evidence[e].active
  {
    forall e | e in mid.db.evidence && mid.db.evidence[e].active && mid.db.evidence[e].identity !in mid.seen
      ensures e in db.evidence && db.evidence[e].active
    {
      assert e in pass.db.evidence;
      assert SameStanding(pass.db.evidence[e], mid.db.evidence[e]);
    }
  }

  // ----- Only a handover makes an incident flicker -----

  /** What a fact decides on, compared with what it finds. */
  ghost predicate SettledFor(db: Db, at: Db, now: Time)
  {
    Evolves(db, at, now) && SamePlaces(db, at) && at.targets == db.targets && SameSuppressions(db, at)
  }

  lemma DecidingState(db: Db, f: Fact, done: set<Spot>, seen: set<Identity>, now: Time)
    requires Shape(db) && Linked(db) && Flow(db, done, seen) && f.identity !in seen
    ensures var at := Deciding(db, f, now);
      && Shape(at) && Linked(at) && Flow(at, done, seen) && SettledFor(db, at, now) && at.evidence.Keys == db.evidence.Keys
      && (forall e :: e in db.evidence && ActiveRow(db.evidence, f.identity) != Some(e) ==> at.evidence[e] == db.evidence[e])
  {
    hide Flow, Shape, Retire, SettledFor;
    match ActiveRow(db.evidence, f.identity)
    case None => SettledSelf(db, now);
    case Some(e) =>
      RetireShape(db, e, now);
      RetireFlow(db, e, done, seen, now);
      RetireSettles(db, e, now);
      RetiredEvidence(db, e, now);
  }

  lemma SettledSelf(db: Db, now: Time)
    ensures SettledFor(db, db, now)
  {
    EvolvesRefl(db, now);
  }

  lemma RetireSettles(db: Db, e: Id, now: Time)
    requires e in db.evidence
    ensures SettledFor(db, Retire(db, e, now), now)
  {
    hide Retire, Evolves, SamePlaces, Suppressed, ResolveRows;
    RetireEvolves(db, e, now);
    RetirePlaces(db, e, now);
    RetiredEvidence(db, e, now);
    forall id
      ensures Suppressed(Retire(db, e, now).evidence, id) <==> Suppressed(db.evidence, id)
    {
      SuppressedAfterRetire(db, e, id, now);
    }
  }

  lemma RetiredEvidence(db: Db, e: Id, now: Time)
    requires e in db.evidence
    ensures var at := Retire(db, e, now); at.evidence == ResolveRows(db, {e}, now).evidence && at.targets == db.targets
  {
  }

  /** A resolved incident was closed before, or its window was over. */
  lemma WindowWasOver(row: Incident, row2: Incident, now: Time)
    requires IncidentEvolves(row, row2, now) && IncidentRow(row2) && row2.status == Resolved
    ensures row.propagation == Closed || row.endsAt <= now
  {
  }

  lemma KeptSpot(db: Db, at: Db, p: Id, now: Time)
    requires Linked(db) && Linked(at) && Evolves(db, at, now) && KeepsPlaces(db, at) && p in db.impacts
    ensures p in at.impacts && SpotOf(at, p) == SpotOf(db, p) && db.impacts[p].incident in at.incidents
    ensures at.incidents[at.impacts[p].incident].openedAt == db.incidents[db.impacts[p].incident].openedAt
  {
    var i := db.impacts[p].incident;
    assert IncidentEvolves(db.incidents[i], at.incidents[i], now);
  }

  /** The one impact of the resumed incident was there before, at the spot of the fact. */
  lemma ResumedEnds(db: Db, at: Db, f: Fact, now: Time, i: Id, e: Id)
    requires Inv(db) && Linked(db) && Shape(at) && Linked(at) && Evolves(db, at, now) && KeepsPlaces(db, at) && Tallied(at)
    requires ResumableImpact(at, f, now).Some? && at.impacts[ResumableImpact(at, f, now).value].incident == i
    requires e in db.evidence && db.evidence[e].active && db.evidence[e].incident == i
    ensures AboutToEnd(db, i, FactSpot(f), now) && LatestAt(db, i, FactSpot(f)) && f.openedAt - RESUMPTION_WINDOW <= now
  {
    hide Evolves, Clean, Identities, Placement, AckOk, Shape, KeepsPlaces;
    var p := db.evidence[e].impact;
    ShapeRow(db, e);
    KeptSpot(db, at, p, now);
    ResumedEndsAt(db, at, f, now, i, p);
    EvidencedIsActive(db, e);
    EvidencedIsOpen(db, e);
    EndedWindow(db, at, i, now);
    forall q | q in db.impacts && Bears(db, q, f.target, f.nature.key)
      ensures db.incidents[db.impacts[q].incident].openedAt <= db.incidents[i].openedAt
    {
      KeptSpot(db, at, q, now);
      assert Bears(at, q, f.target, f.nature.key);
    }
  }

  lemma ShapeRow(db: Db, e: Id)
    requires Shape(db) && e in db.evidence
    ensures var p := db.evidence[e].impact;
      p in db.impacts && db.impacts[p].incident == db.evidence[e].incident && db.impacts[p].target == db.evidence[e].target &&
      EvidenceRow(db.evidence[e])
  {
  }

  lemma EvidencedIsOpen(db: Db, e: Id)
    requires Inv(db) && e in db.evidence && db.evidence[e].active
    ensures OpenAt(db, db.evidence[e].impact)
  {
    hide IncidentAgrees;
    var p := db.evidence[e].impact;
    assert Sustains(db.evidence[e], p) && ImpactAgrees(db.evidence, p, db.impacts[p]);
  }

  lemma EndedWindow(db: Db, at: Db, i: Id, now: Time)
    requires Evolves(db, at, now) && i in db.incidents && i in at.incidents && Shape(at) && at.incidents[i].status == Resolved
    ensures db.incidents[i].propagation == Closed || db.incidents[i].endsAt <= now
  {
    assert IncidentEvolves(db.incidents[i], at.incidents[i], now) && IncidentRow(at.incidents[i]);
    WindowWasOver(db.incidents[i], at.incidents[i], now);
  }

  lemma ResumedEndsAt(db: Db, at: Db, f: Fact, now: Time, i: Id, p: Id)
    requires Linked(db) && KeepsPlaces(db, at) && Tallied(at) && p in db.impacts && db.impacts[p].incident == i
    requires ResumableImpact(at, f, now).Some? && at.impacts[ResumableImpact(at, f, now).value].incident == i
    ensures ResumableImpact(at, f, now) == Some(p) && ImpactsOf(db.impacts, i) == {p}
  {
    var q := ResumableImpact(at, f, now).value;
    var ps := ImpactsOf(at.impacts, i);
    assert |ps| == 1 && q in ps;
    forall x | x in ImpactsOf(db.impacts, i)
      ensures x == q
    {
      assert x in ps;
      OnlyOne(ps, x, q);
    }
    assert p in ImpactsOf(db.impacts, i);
  }

  /** At the turn of a fact that resumes the incident, every row of it has been moved. */
  lemma RowsHaveMoved(db: Db, facts: seq<Fact>, l: nat, pass: Pass, done: set<Spot>, now: Time, i: Id, e: Id)
    requires Linked(db) && Shape(pass.db) && Linked(pass.db) && Flow(pass.db, done, pass.seen)
    requires Tracks(db, facts, l, pass, now) && l < |facts| && facts[l].identity !in pass.seen
    requires !FactCollides(pass.db, facts[l], now) && FactResumes(pass.db, facts[l], now, i)
    requires e in db.evidence && db.evidence[e].active && db.evidence[e].incident == i
    ensures MovedBefore(db, facts, l, e)
  {
    hide Flow, Shape, Evolves, KeepsPlaces, SameSuppressions, SeenBefore, Retire, SamePlaces, Linked;
    var f, at := facts[l], Deciding(pass.db, facts[l], now);
    assert RowTracked(db, facts, l, pass.db, pass.seen, e);
    if pass.db.evidence[e].active {
      DecidingState(pass.db, f, done, pass.seen, now);
      if ActiveRow(pass.db.evidence, f.identity) == Some(e) {
        LeftIsNotResumed(pass.db, e, f, now);
      } else {
        StaleIfEvidenced(at, f, done, pass.seen, now, e);
      }
    }
  }

  lemma SamePlacesKeeps(db: Db, db2: Db)
    requires SamePlaces(db, db2)
    ensures KeepsPlaces(db, db2)
  {
  }

  lemma FlowTallied(db: Db, done: set<Spot>, seen: set<Identity>)
    requires Flow(db, done, seen)
    ensures Tallied(db)
  {
  }

  lemma StaleIfEvidenced(db: Db, f: Fact, done: set<Spot>, seen: set<Identity>, now: Time, e: Id)
    requires Flow(db, done, seen) && Shape(db) && e in db.evidence && db.evidence[e].active
    requires ResumableImpact(db, f, now).Some? && db.impacts[ResumableImpact(db, f, now).value].incident == db.evidence[e].incident
    ensures StaleAt(db, FactSpot(f))
  {
    FlowWider(db, done, seen, done, seen + {db.evidence[e].identity});
    StaleIfHeld(db, f, done, seen + {db.evidence[e].identity}, now, db.evidence[e].incident);
  }

  lemma ResumingIsHandover(db: Db, facts: seq<Fact>, l: nat, pass: Pass, done: set<Spot>, now: Time, i: Id, e: Id)
    requires Inv(db) && Linked(db) && Shape(pass.db) && Linked(pass.db) && Flow(pass.db, done, pass.seen)
    requires Tracks(db, facts, l, pass, now) && l < |facts| && facts[l].identity !in pass.seen
    requires !FactCollides(pass.db, facts[l], now) && FactResumes(pass.db, facts[l], now, i)
    requires e in db.evidence && db.evidence[e].active && db.evidence[e].incident == i
    ensures HandedOver(db, facts, now, i, l)
  {
    hide Inv, Shape, Evolves, SeenBefore, Retire, FactCollides, AboutToEnd, LatestAt, RowTracked, MovedBefore, FirstReport,
      KeepsPlaces, SamePlaces, Flow, Suppressed, Linked;
    var f, at := facts[l], Deciding(pass.db, facts[l], now);
    UnseenIsFirst(db, facts, l, pass, now);
    DecidingState(pass.db, f, done, pass.seen, now);
    EvolvesTrans(db, pass.db, at, now);
    SamePlacesKeeps(pass.db, at);
    PlacesTrans(db, pass.db, at);
    FlowTallied(at, done, pass.seen);
    ResumedEnds(db, at, f, now, i, e);
    forall x | x in db.evidence && db.evidence[x].active && db.evidence[x].incident == i
      ensures MovedBefore(db, facts, l, x)
    {
      RowsHaveMoved(db, facts, l, pass, done, now, i, x);
    }
  }

  lemma PassParts(pass: Pass)
    requires PassOk(pass)
    ensures Shape(pass.db) && Identities(pass.db)
  {
  }

  lemma TracksInside(db: Db, facts: seq<Fact>, k: nat, pass: Pass, now: Time)
    requires Linked(db) && Tracks(db, facts, k, pass, now)
    ensures k <= |facts|
  {
  }

  /** The row that a flickering incident loses was there from the start. */
  lemma {:induction false} FlickeringHadEvidence(db: Db, facts: seq<Fact>, k: nat, pass: Pass, now: Time, i: Id) returns (e: Id)
    requires Linked(db) && PassOk(pass) && Linked(pass.db) && Tracks(db, facts, k, pass, now)
    requires PassFlickers(pass, facts[k..], now, i)
    ensures e in db.evidence && db.evidence[e].active && db.evidence[e].incident == i
    decreases |facts| - k
  {
    hide ApplyOne, PassOk, Evolves, KeepsPlaces, SameSuppressions, SeenBefore, PassResumes;
    assert facts[k..][0] == facts[k] && facts[k..][1..] == facts[k + 1..];
    var f := facts[k];
    if f.identity !in pass.seen && FactLeaves(pass.db, f, now, i) {
      e := ActiveRow(pass.db.evidence, f.identity).value;
      assert RowTracked(db, facts, k, pass.db, pass.seen, e);
    } else {
      PassParts(pass);
      ApplyOneOk(pass, f, now);
      TracksStep(db, facts, k, pass, now);
      e := FlickeringHadEvidence(db, facts, k + 1, ApplyOne(pass, f, now).value, now, i);
    }
  }

  /** The fact that resumes an incident whose evidence was there from the start takes its place. */
  lemma {:induction false} ResumingHasHandover(db: Db, facts: seq<Fact>, k: nat, pass: Pass, done: set<Spot>, keyOf: KeyOf,
      now: Time, i: Id, e: Id) returns (l: nat)
    requires Inv(db) && Linked(db) && PassOk(pass) && Linked(pass.db) && Flow(pass.db, done, pass.seen) && Coherent(pass.db, keyOf)
    requires Tracks(db, facts, k, pass, now) && CoherentFacts(facts, keyOf)
    requires !PassCollides(pass, facts[k..], now) && PassResumes(pass, facts[k..], now, i)
    requires e in db.evidence && db.evidence[e].active && db.evidence[e].incident == i
    ensures HandedOver(db, facts, now, i, l)
    decreases |facts| - k
  {
    hide ApplyOne, PassOk, Inv, Flow, Tracks, Shape, HandedOver, FactCollides, FactResumes, Coherent, Orderly;
    TracksInside(db, facts, k, pass, now);
    assert facts[k..][0] == facts[k] && facts[k..][1..] == facts[k + 1..];
    var f := facts[k];
    PassParts(pass);
    if f.identity !in pass.seen && FactResumes(pass.db, f, now, i) {
      l := k;
      ResumingIsHandover(db, facts, k, pass, done, now, i, e);
    } else {
      var mid := ApplyOne(pass, f, now).value;
      assert CoherentNature(f.nature, keyOf);
      ApplyOneOk(pass, f, now);
      ApplyOneFlow(pass, f, done, keyOf, now);
      OrderlyCoherent(pass.db, mid.db, keyOf);
      TracksStep(db, facts, k, pass, now);
      l := ResumingHasHandover(db, facts, k + 1, mid, SpotsAfter(pass, f, done), keyOf, now, i, e);
    }
  }

  /** A snapshot that makes an incident flicker hands it over. */
  lemma FlickeringIsHandover(db: Db, s: Snapshot, i: Id, keyOf: KeyOf) returns (l: nat)
    requires Regular(db, keyOf) && Linked(db) && Tame(Observe(s), keyOf) && Flickers(db, Observe(s), i)
    ensures HandedOver(db, Prepared(s), s.observedAt, i, l)
  {
    hide Flow, PassFlickers, PassResumes, Tracks, HandedOver, Shape, ApplySnapshot;
    var pass, facts := Pass(db, {}, {}, {}), Prepared(s);
    FlowStarts(db);
    SeparateSnapshotFits(db, s, keyOf);
    TracksStart(db, facts, s.observedAt);
    assert facts[0..] == facts;
    var e := FlickeringHadEvidence(db, facts, 0, pass, s.observedAt, i);
    FlickeringResumes(pass, facts, s.observedAt, i);
    l := ResumingHasHandover(db, facts, 0, pass, {}, keyOf, s.observedAt, i, e);
  }
}
