/** Resumptions: which facts resume an incident, how often in a snapshot, and what that is in terms of committed states. */
module IncidentResumptions {
  import opened Common
  import opened Trigger
  import opened IncidentModel
  import opened IncidentCycle
  import opened IncidentSnapshot
  import opened IncidentStructure
  import opened IncidentInvariants
  import opened IncidentAggregates
  import opened IncidentIdentities
  import opened IncidentAcknowledgement
  import opened IncidentTransactions
  import opened IncidentStructureProofs
  import opened IncidentRuns
  import opened IncidentEvolution
  import opened IncidentHistory
  import opened IncidentJoins
  import opened IncidentVoices
  import opened IncidentSequence
  import opened IncidentUniqueness

  function StatusIn(db: Db, i: Id): Status { if i in db.incidents then db.incidents[i].status else Active }

  function ResumptionsIn(db: Db, i: Id): int { if i in db.incidents then db.incidents[i].resumptions else 0 }

  function ResolutionsIn(db: Db, i: Id): int { if i in db.incidents then db.incidents[i].resolutions else 0 }

  // ----- One fact -----

  /** The fact, applied to these tables, resumes incident `i`. */
  ghost predicate FactResumes(db: Db, f: Fact, now: Time, i: Id)
    requires Linked(db)
  {
    && Seeks(db, f, now)
    && var at := Deciding(db, f, now);
    && PropagatingIncident(at, f).None? && ResumableImpact(at, f, now).Some?
    && at.impacts[ResumableImpact(at, f, now).value].incident == i
  }

  /** The fact takes the last evidence of incident `i` away, which resolves it. */
  ghost predicate FactLeaves(db: Db, f: Fact, now: Time, i: Id)
    requires Linked(db)
  {
    && Complete(f) && ActiveRow(db.evidence, f.identity).Some?
    && var e := ActiveRow(db.evidence, f.identity).value;
    && !Agrees(db, e, f) && db.evidence[e].incident == i && i in db.incidents && db.incidents[i].status == Active
    && i in Retire(db, e, now).incidents && Retire(db, e, now).incidents[i].status == Resolved
  }

  /** What is known of incident `i` stays as it was. */
  predicate SameCount(db: Db, db2: Db, i: Id)
  {
    ResumptionsIn(db2, i) == ResumptionsIn(db, i) && StatusIn(db2, i) == StatusIn(db, i)
  }

  lemma SameCyclesCount(db: Db, db2: Db, i: Id)
    requires db2.incidents.Keys == db.incidents.Keys
    requires forall j :: j in db.incidents ==> SameCycle(db.incidents[j], db2.incidents[j])
    ensures SameCount(db, db2, i)
  {
  }

  lemma AddEvidenceCount(db: Db, f: Fact, i: Id, p: Id, now: Time, j: Id)
    requires Linked(db) && ValidSeverity(f.severity) && i in db.incidents
    ensures SameCount(db, AddEvidence(db, f, i, p, now), j)
  {
    hide InsertEvidence, AckFromEvidence;
    var added := InsertEvidence(db, f, i, p);
    InsertEvidenceSame(db, f, i, p);
    SameCyclesCount(db, added, j);
    if f.upstream {
      var db2 := AddEvidence(db, f, i, p, now);
      AckFromEvidenceOnly(added, i, now);
      AckOnlyStill(added, db2);
      SameCyclesCount(added, db2, j);
    }
  }

  /** Only a resumption changes the count; no impact is opened by resolving an incident. */
  lemma OpenImpactCount(db: Db, f: Fact, now: Time, i: Id)
    requires Shape(db) && Linked(db) && ValidSeverity(f.severity)
    ensures var db2 := OpenImpact(db, f, now).db;
      var resumes := ActiveImpact(db, f).None? && PropagatingIncident(db, f).None? && ResumableImpact(db, f, now).Some? &&
                     db.impacts[ResumableImpact(db, f, now).value].incident == i;
      ResumptionsIn(db2, i) == ResumptionsIn(db, i) + (if resumes then 1 else 0) && StatusIn(db2, i) == StatusIn(db, i)
  {
    hide Join, Resume, Create, Shape, ResumptionsIn, StatusIn;
    match ActiveImpact(db, f)
    case Some(p) =>
    case None =>
      match PropagatingIncident(db, f)
      case Some(n) => JoinCount(db, n, f, i);
      case None =>
        match ResumableImpact(db, f, now)
        case Some(p) => ResumeCount(db, p, f, now, i);
        case None => CreateCount(db, f, now, i);
  }

  lemma JoinCount(db: Db, n: Id, f: Fact, i: Id)
    requires ValidSeverity(f.severity) && n in db.incidents
    ensures SameCount(db, Join(db, n, f).db, i)
  {
    hide EvidenceWindow, ImpactOn;
  }

  lemma ResumeCount(db: Db, p: Id, f: Fact, now: Time, i: Id)
    requires ValidSeverity(f.severity) && p in db.impacts && db.impacts[p].incident in db.incidents
    ensures var db2 := Resume(db, p, f, now).db;
      && ResumptionsIn(db2, i) == ResumptionsIn(db, i) + (if db.impacts[p].incident == i then 1 else 0)
      && StatusIn(db2, i) == StatusIn(db, i)
  {
  }

  lemma CreateCount(db: Db, f: Fact, now: Time, i: Id)
    requires Shape(db) && ValidSeverity(f.severity)
    ensures SameCount(db, Create(db, f, now).db, i)
  {
    hide EvidenceWindow, ImpactRow, EvidenceRow, IncidentRow;
  }

  lemma OpenFactCount(db: Db, f: Fact, now: Time, i: Id)
    requires Shape(db) && Linked(db) && ValidSeverity(f.severity) && !OpenFact(db, f, now).Failed?
    ensures var db2 := OpenFact(db, f, now).db;
      var resumes := !Suppressed(db.evidence, f.identity) && IsLive(db.targets, f.target) && ActiveImpact(db, f).None? &&
                     PropagatingIncident(db, f).None? && ResumableImpact(db, f, now).Some? &&
                     db.impacts[ResumableImpact(db, f, now).value].incident == i;
      ResumptionsIn(db2, i) == ResumptionsIn(db, i) + (if resumes then 1 else 0) && StatusIn(db2, i) == StatusIn(db, i)
  {
    hide OpenImpact, AddEvidence, Shape, ResumptionsIn, StatusIn;
    if !Suppressed(db.evidence, f.identity) && IsLive(db.targets, f.target) {
      var o := OpenImpact(db, f, now);
      OpenImpactCount(db, f, now, i);
      AddEvidenceCount(o.db, f, o.incident, o.impact, now, i);
    }
  }

  /** Recomputing rows resumes nothing. */
  lemma SettleCount(db: Db, ps: set<Id>, ns: set<Id>, now: Time, i: Id)
    ensures ResumptionsIn(Settle(db, ps, ns, now), i) == ResumptionsIn(db, i)
    ensures i !in ns ==> StatusIn(Settle(db, ps, ns, now), i) == StatusIn(db, i)
  {
  }

  lemma RetireCount(db: Db, e: Id, now: Time, i: Id)
    requires e in db.evidence
    ensures ResumptionsIn(Retire(db, e, now), i) == ResumptionsIn(db, i)
    ensures i != db.evidence[e].incident ==> StatusIn(Retire(db, e, now), i) == StatusIn(db, i)
    ensures Retire(db, e, now).incidents.Keys == db.incidents.Keys
  {
    SettleCount(ResolveRows(db, {e}, now), {db.evidence[e].impact}, {db.evidence[e].incident}, now, i);
  }

  /** A fact adds one resumption to the incident it resumes, and resolves only an incident that it leaves. */
  lemma FactCount(db: Db, f: Fact, now: Time, i: Id)
    requires Shape(db) && Linked(db) && !ApplyFact(db, f, now).Failed?
    ensures var db2 := ApplyFact(db, f, now).db;
      && ResumptionsIn(db2, i) == ResumptionsIn(db, i) + (if FactResumes(db, f, now, i) then 1 else 0)
      && (StatusIn(db, i) == Active && StatusIn(db2, i) == Resolved ==> FactLeaves(db, f, now, i))
  {
    hide OpenFact, Refresh, Retire, ResumptionsIn;
    match ActiveRow(db.evidence, f.identity)
    case None => OpenFactCount(db, f, now, i);
    case Some(e) =>
      assert EvidenceRow(db.evidence[e]);
      if Agrees(db, e, f) {
        RefreshStill(db, e, f, now);
        SameCyclesCount(db, Refresh(db, e, f, now), i);
      } else {
        RetireShape(db, e, now);
        RetireCount(db, e, now, i);
        OpenFactCount(Retire(db, e, now), f, now, i);
      }
  }

  /** The incident a fact resumes was resolved before the fact: it is not one that the fact itself leaves. */
  lemma ResumedWasResolved(db: Db, f: Fact, now: Time, i: Id)
    requires Shape(db) && Linked(db) && FactResumes(db, f, now, i)
    ensures i in db.incidents && db.incidents[i].status == Resolved
  {
    hide Retire, Shape;
    match ActiveRow(db.evidence, f.identity)
    case None =>
    case Some(e) =>
      RetireCount(db, e, now, i);
      if i == db.evidence[e].incident {
        LeftIsNotResumed(db, e, f, now);
      }
  }

  lemma LeftIsNotResumed(db: Db, e: Id, f: Fact, now: Time)
    requires Shape(db) && Linked(db) && e in db.evidence && db.evidence[e].active && !Agrees(db, e, f)
    requires ResumableImpact(Retire(db, e, now), f, now).Some?
    ensures Retire(db, e, now).impacts[ResumableImpact(Retire(db, e, now), f, now).value].incident != db.evidence[e].incident
  {
    hide Retire, Shape;
    var at, i, p := Retire(db, e, now), db.evidence[e].incident, db.evidence[e].impact;
    var q := ResumableImpact(at, f, now).value;
    RetiredRows(db, e, now);
    if at.impacts[q].incident == i {
      OnlyOne(ImpactsOf(at.impacts, i), p, q);
    }
  }

  /** Where the row was, once it is retired. */
  lemma RetiredRows(db: Db, e: Id, now: Time)
    requires Shape(db) && Linked(db) && e in db.evidence
    ensures var at, i, p := Retire(db, e, now), db.evidence[e].incident, db.evidence[e].impact;
      && i in at.incidents && at.incidents[i].nature == db.incidents[i].nature
      && at.incidents[i].impactCount == |ImpactsOf(at.impacts, i)|
      && p in at.impacts && at.impacts[p].incident == i && at.impacts[p].target == db.evidence[e].target
  {
    hide IncidentRow, ImpactRow, EvidenceRow;
    var closed, i, p := ResolveRows(db, {e}, now), db.evidence[e].incident, db.evidence[e].impact;
    var settled := RecomputeImpacts(closed, {p}, now);
    DerivedStatus(closed.evidence, p, db.impacts[p], now);
    AggregatedStatus(closed.evidence, settled.impacts, LiveTargetCount(db.targets), i, db.incidents[i], now);
  }

  lemma OnlyOne(s: set<Id>, x: Id, y: Id)
    requires |s| == 1 && x in s && y in s
    ensures x == y
  {
    assert |s - {x}| == 0;
  }

  // ----- An incident is resumed at most once in a snapshot -----

  /** The snapshot has reported live evidence of the incident. */
  ghost predicate Held(db: Db, seen: set<Identity>, i: Id)
  {
    exists e :: e in db.evidence && db.evidence[e].active && db.evidence[e].incident == i && db.evidence[e].identity in seen
  }

  lemma HeldStays(db: Db, f: Fact, seen: set<Identity>, now: Time, i: Id)
    requires Shape(db) && Linked(db) && Identities(db) && f.identity !in seen && Held(db, seen, i)
    requires !ApplyFact(db, f, now).Failed?
    ensures Held(ApplyFact(db, f, now).db, seen + {f.identity}, i)
  {
    hide ApplyFact, Shape, Identities;
    ApplyFactOutcome(db, f, now);
    var e :| e in db.evidence && db.evidence[e].active && db.evidence[e].incident == i && db.evidence[e].identity in seen;
    assert SameStanding(db.evidence[e], ApplyFact(db, f, now).db.evidence[e]);
  }

  lemma ResumedIsHeld(db: Db, f: Fact, seen: set<Identity>, now: Time, i: Id)
    requires Shape(db) && Linked(db) && FactResumes(db, f, now, i)
    ensures var r := ApplyFact(db, f, now); r.Touched? && Held(r.db, seen + {f.identity}, i)
  {
    hide Retire, Shape, OpenFact;
    match ActiveRow(db.evidence, f.identity)
    case None => ResumingHolds(db, f, seen, now);
    case Some(e) =>
      RetireShape(db, e, now);
      ResumingHolds(Retire(db, e, now), f, seen, now);
  }

  lemma ResumingHolds(db: Db, f: Fact, seen: set<Identity>, now: Time)
    requires Shape(db) && Linked(db) && ValidSeverity(f.severity) && !Suppressed(db.evidence, f.identity) && IsLive(db.targets, f.target)
    requires ActiveImpact(db, f).None? && PropagatingIncident(db, f).None? && ResumableImpact(db, f, now).Some?
    ensures var r := OpenFact(db, f, now);
      r.Touched? && Held(r.db, seen + {f.identity}, db.impacts[ResumableImpact(db, f, now).value].incident)
  {
    hide AddEvidence, Shape;
    var o := OpenImpact(db, f, now);
    OpenImpactShape(db, f, now);
    AddEvidenceVoices(o.db, f, o.incident, o.impact, now);
  }

  /** Without a collision, an incident whose evidence the snapshot has reported is not resumed. */
  lemma HeldIsNotResumed(db: Db, f: Fact, done: set<Spot>, seen: set<Identity>, now: Time, i: Id)
    requires Flow(db, done, seen) && Shape(db) && Linked(db) && f.identity !in seen && Held(db, seen, i)
    requires !FactCollides(db, f, now)
    ensures !FactResumes(db, f, now, i)
  {
    hide Flow, Shape, Retire;
    if FactResumes(db, f, now, i) {
      match ActiveRow(db.evidence, f.identity) {
        case None => StaleIfHeld(db, f, done, seen, now, i);
        case Some(e) =>
          RetireShape(db, e, now);
          RetireFlow(db, e, done, seen, now);
          HeldAfterRetire(db, e, seen, now, i);
          StaleIfHeld(Retire(db, e, now), f, done, seen, now, i);
      }
    }
  }

  lemma HeldAfterRetire(db: Db, e: Id, seen: set<Identity>, now: Time, i: Id)
    requires Held(db, seen, i) && e in db.evidence && db.evidence[e].identity !in seen
    ensures Held(Retire(db, e, now), seen, i)
  {
    var x :| x in db.evidence && db.evidence[x].active && db.evidence[x].incident == i && db.evidence[x].identity in seen;
    assert Retire(db, e, now).evidence[x] == db.evidence[x];
  }

  lemma StaleIfHeld(db: Db, f: Fact, done: set<Spot>, seen: set<Identity>, now: Time, i: Id)
    requires Flow(db, done, seen) && Shape(db) && Held(db, seen, i)
    requires ResumableImpact(db, f, now).Some? && db.impacts[ResumableImpact(db, f, now).value].incident == i
    ensures StaleAt(db, FactSpot(f))
  {
    var p := ResumableImpact(db, f, now).value;
    var e :| e in db.evidence && db.evidence[e].active && db.evidence[e].incident == i && db.evidence[e].identity in seen;
    var q := db.evidence[e].impact;
    assert EvidenceRow(db.evidence[e]) && Sustains(db.evidence[e], q);
    assert p in ImpactsOf(db.impacts, i) && q in ImpactsOf(db.impacts, i);
    OnlyOne(ImpactsOf(db.impacts, i), p, q);
    assert OpenAt(db, p) && SpotOf(db, p) == FactSpot(f);
  }

  /** Some fact of the pass, when its turn comes, resumes incident `i`. */
  ghost predicate PassResumes(pass: Pass, facts: seq<Fact>, now: Time, i: Id)
    requires Linked(pass.db)
    decreases |facts|
  {
    facts != [] &&
    ((facts[0].identity !in pass.seen && FactResumes(pass.db, facts[0], now, i)) ||
     (ApplyOne(pass, facts[0], now).Ok? && PassResumes(ApplyOne(pass, facts[0], now).value, facts[1..], now, i)))
  }

  /** Some fact of the pass leaves incident `i`, which resolves it, and a later one resumes it. */
  ghost predicate PassFlickers(pass: Pass, facts: seq<Fact>, now: Time, i: Id)
    requires Linked(pass.db)
    decreases |facts|
  {
    facts != [] && ApplyOne(pass, facts[0], now).Ok? &&
    var next := ApplyOne(pass, facts[0], now).value;
    (facts[0].identity !in pass.seen && FactLeaves(pass.db, facts[0], now, i) && PassResumes(next, facts[1..], now, i)) ||
    PassFlickers(next, facts[1..], now, i)
  }

  lemma {:induction false} FlickeringResumes(pass: Pass, facts: seq<Fact>, now: Time, i: Id)
    requires Linked(pass.db) && PassFlickers(pass, facts, now, i)
    ensures PassResumes(pass, facts, now, i)
    decreases |facts|
  {
    hide ApplyOne, FactLeaves, FactResumes;
    var next := ApplyOne(pass, facts[0], now).value;
    if PassFlickers(next, facts[1..], now, i) {
      FlickeringResumes(next, facts[1..], now, i);
    }
  }

  /** What one fact of a pass does to the count of incident `i`. */
  ghost predicate OneCounted(pass: Pass, f: Fact, mid: Pass, now: Time, i: Id)
    requires Linked(pass.db)
  {
    var resumes := f.identity !in pass.seen && FactResumes(pass.db, f, now, i);
    && ResumptionsIn(mid.db, i) == ResumptionsIn(pass.db, i) + (if resumes then 1 else 0)
    && (Held(pass.db, pass.seen, i) ==> !resumes) && (resumes || Held(pass.db, pass.seen, i) ==> Held(mid.db, mid.seen, i))
    && (resumes ==> StatusIn(pass.db, i) == Resolved)
    && (StatusIn(pass.db, i) == Active && StatusIn(mid.db, i) == Resolved ==>
          f.identity !in pass.seen && FactLeaves(pass.db, f, now, i))
  }

  lemma OneCount(pass: Pass, f: Fact, done: set<Spot>, now: Time, i: Id)
    requires PassOk(pass) && Linked(pass.db) && Flow(pass.db, done, pass.seen)
    requires (f.identity !in pass.seen ==> !FactCollides(pass.db, f, now)) && ApplyOne(pass, f, now).Ok?
    ensures OneCounted(pass, f, ApplyOne(pass, f, now).value, now, i)
  {
    hide ApplyFact, FactResumes, FactLeaves, FactCollides, Held, Flow, Shape, ResumptionsIn;
    if f.identity !in pass.seen {
      FactCount(pass.db, f, now, i);
      if Held(pass.db, pass.seen, i) {
        HeldIsNotResumed(pass.db, f, done, pass.seen, now, i);
        HeldStays(pass.db, f, pass.seen, now, i);
      }
      if FactResumes(pass.db, f, now, i) {
        ResumedWasResolved(pass.db, f, now, i);
        ResumedIsHeld(pass.db, f, pass.seen, now, i);
      }
    }
  }

  /** What a whole pass does to it. */
  ghost predicate PassCounted(pass: Pass, facts: seq<Fact>, out: Pass, now: Time, i: Id)
    requires Linked(pass.db)
  {
    var resumes := PassResumes(pass, facts, now, i);
    && ResumptionsIn(out.db, i) == ResumptionsIn(pass.db, i) + (if resumes then 1 else 0)
    && (Held(pass.db, pass.seen, i) ==> !resumes) && (resumes || Held(pass.db, pass.seen, i) ==> Held(out.db, out.seen, i))
    && (StatusIn(pass.db, i) == Active ==> (resumes <==> PassFlickers(pass, facts, now, i)))
  }

  lemma CountCons(pass: Pass, facts: seq<Fact>, mid: Pass, out: Pass, now: Time, i: Id)
    requires Linked(pass.db) && facts != [] && ApplyOne(pass, facts[0], now) == Ok(mid)
    requires OneCounted(pass, facts[0], mid, now, i) && PassCounted(mid, facts[1..], out, now, i)
    ensures PassCounted(pass, facts, out, now, i)
  {
    hide ApplyOne, FactResumes, FactLeaves, Held, ResumptionsIn, StatusIn;
    if PassFlickers(pass, facts, now, i) {
      FlickeringResumes(pass, facts, now, i);
    }
  }

  lemma {:induction false} PassCount(pass: Pass, facts: seq<Fact>, done: set<Spot>, keyOf: KeyOf, now: Time, i: Id)
    requires PassOk(pass) && Linked(pass.db) && Flow(pass.db, done, pass.seen) && Coherent(pass.db, keyOf)
    requires CoherentFacts(facts, keyOf) && !PassCollides(pass, facts, now) && ApplyFacts(pass, facts, now).Ok?
    ensures PassCounted(pass, facts, ApplyFacts(pass, facts, now).value, now, i)
    decreases |facts|
  {
    hide PassOk, Flow, OneCounted, FactCollides, Coherent, Orderly, Shape;
    if facts == [] {
      assert PassCounted(pass, facts, pass, now, i);
    } else {
      hide PassCounted;
      var mid := ApplyOne(pass, facts[0], now).value;
      OneCount(pass, facts[0], done, now, i);
      PassShape(pass);
      ApplyOneOk(pass, facts[0], now);
      ApplyOneFlow(pass, facts[0], done, keyOf, now);
      OrderlyCoherent(pass.db, mid.db, keyOf);
      PassCount(mid, facts[1..], SpotsAfter(pass, facts[0], done), keyOf, now, i);
      CountCons(pass, facts, mid, ApplyFacts(mid, facts[1..], now).value, now, i);
    }
  }

  lemma PassShape(pass: Pass)
    requires PassOk(pass)
    ensures Shape(pass.db)
  {
  }

  lemma OrderlyCoherent(db: Db, db2: Db, keyOf: KeyOf)
    requires Orderly(db, db2, keyOf)
    ensures Coherent(db2, keyOf)
  {
  }

  // ----- Snapshots -----

  lemma FinishCount(pass: Pass, s: Snapshot, i: Id)
    ensures ResumptionsIn(Finish(pass, s), i) == ResumptionsIn(pass.db, i)
  {
    hide Settle, ResumptionsIn;
    var gone := Gone(pass.db, s, pass.seen);
    var rearmed := Rearm(ResolveRows(pass.db, gone, s.observedAt), s, pass.seen, s.observedAt);
    var ps, ns := pass.impacts + ImpactsTouching(pass.db, gone), pass.incidents + IncidentsTouching(pass.db, gone);
    SameRowsCount(pass.db, rearmed, i);
    SettleCount(rearmed, ps, ns, s.observedAt, i);
    var settled := Settle(rearmed, ps, ns, s.observedAt);
    RecomputeCount(settled, Due(settled, s.observedAt), s.observedAt, i);
  }

  lemma SameRowsCount(db: Db, db2: Db, i: Id)
    requires db2.incidents == db.incidents
    ensures ResumptionsIn(db2, i) == ResumptionsIn(db, i)
  {
  }

  lemma RecomputeCount(db: Db, ns: set<Id>, now: Time, i: Id)
    ensures ResumptionsIn(RecomputeIncidents(db, ns, now), i) == ResumptionsIn(db, i)
  {
  }

  lemma HeldEndsActive(pass: Pass, s: Snapshot, i: Id)
    requires Held(pass.db, pass.seen, i) && Inv(Finish(pass, s))
    ensures StatusIn(Finish(pass, s), i) == Active
  {
    hide Settle, AdvanceDue;
    var e :| e in pass.db.evidence && pass.db.evidence[e].active && pass.db.evidence[e].incident == i && pass.db.evidence[e].identity in pass.seen;
    HeldRow(pass, s, e);
    EvidencedIsActive(Finish(pass, s), e);
  }

  lemma HeldRow(pass: Pass, s: Snapshot, e: Id)
    requires e in pass.db.evidence && pass.db.evidence[e].active && pass.db.evidence[e].identity in pass.seen
    ensures var db2 := Finish(pass, s);
      e in db2.evidence && db2.evidence[e].active && db2.evidence[e].incident == pass.db.evidence[e].incident
  {
    var gone := Gone(pass.db, s, pass.seen);
    assert Finish(pass, s).evidence == Rearm(ResolveRows(pass.db, gone, s.observedAt), s, pass.seen, s.observedAt).evidence;
  }

  lemma EvidencedIsActive(db: Db, e: Id)
    requires Inv(db) && e in db.evidence && db.evidence[e].active
    ensures StatusIn(db, db.evidence[e].incident) == Active
  {
    VouchedStarts(db);
  }

  /** A snapshot resumes an incident at most once, and leaves it active then. */
  ghost predicate SnapshotCounted(db: Db, s: Snapshot, db2: Db, i: Id)
    requires Linked(db)
  {
    var pass, facts := Pass(db, {}, {}, {}), Prepared(s);
    var resumes := PassResumes(pass, facts, s.observedAt, i);
    && ResumptionsIn(db2, i) == ResumptionsIn(db, i) + (if resumes then 1 else 0)
    && (resumes ==> StatusIn(db2, i) == Active)
    && (StatusIn(db, i) == Active ==> (resumes <==> PassFlickers(pass, facts, s.observedAt, i)))
  }

  lemma SnapshotCount(db: Db, s: Snapshot, i: Id, keyOf: KeyOf)
    requires Regular(db, keyOf) && Linked(db) && Tame(Observe(s), keyOf) && ApplySnapshot(db, s).Ok?
    ensures SnapshotCounted(db, s, ApplySnapshot(db, s).value, i)
  {
    hide Flow, ApplyFacts, PassResumes, PassFlickers, Held, ResumptionsIn, StatusIn, Finish, Shape;
    var pass, facts := Pass(db, {}, {}, {}), Prepared(s);
    var out := ApplyFacts(pass, facts, s.observedAt).value;
    FlowStarts(db);
    SeparateSnapshotFits(db, s, keyOf);
    PassCount(pass, facts, {}, keyOf, s.observedAt, i);
    FinishCount(out, s, i);
    SnapshotInv(db, s);
    if PassResumes(pass, facts, s.observedAt, i) {
      HeldEndsActive(out, s, i);
    }
  }

  // ----- Native observations -----

  /** A native trigger resumes only an incident that was resolved before, and leaves it active. */
  lemma NativeCount(db: Db, o: Observation, i: Id)
    requires Inv(db) && Linked(db) && ApplyNative(db, o).Ok?
    ensures var db2 := ApplyNative(db, o).value;
      ResumptionsIn(db2, i) == ResumptionsIn(db, i) ||
      (ResumptionsIn(db2, i) == ResumptionsIn(db, i) + 1 && StatusIn(db, i) == Resolved && StatusIn(db2, i) == Active)
  {
    hide NativeEffect, ResumptionsIn;
    var source := db.sources[o.source];
    var decision := Evaluate(source.policy, source.streaks, o.outcome);
    var counted := Counted(db, o.source, decision.streaks);
    SameRowsCount(db, counted, i);
    OutsidePartial(db, counted, {}, {});
    NativeInv(db, o);
    NativeEffectCount(counted, o, source.severity, decision, i);
  }

  lemma NativeEffectCount(db: Db, o: Observation, severity: Severity, decision: Decision, i: Id)
    requires Inv(db) && Linked(db) && NativeEffect(db, o, severity, decision).Ok?
    requires Inv(NativeEffect(db, o, severity, decision).value)
    ensures var db2 := NativeEffect(db, o, severity, decision).value;
      ResumptionsIn(db2, i) == ResumptionsIn(db, i) ||
      (ResumptionsIn(db2, i) == ResumptionsIn(db, i) + 1 && StatusIn(db, i) == Resolved && StatusIn(db2, i) == Active)
  {
    hide ApplyFact, Settle, AdvanceDue, RecoverNative, ResumptionsIn, StatusIn, FactResumes, Inv;
    if decision.triggered {
      TriggerCount(db, NativeFact(o, severity), o.observedAt, i);
    } else if decision.recovered {
      RecoverCount(db, o.source, o.observedAt, i);
    } else {
      RecomputeAllCount(db, o.observedAt, i);
    }
  }

  lemma RecomputeAllCount(db: Db, now: Time, i: Id)
    ensures ResumptionsIn(AdvanceDue(db, now), i) == ResumptionsIn(db, i)
  {
    RecomputeCount(db, Due(db, now), now, i);
  }

  lemma TriggerCount(db: Db, f: Fact, now: Time, i: Id)
    requires Inv(db) && Linked(db)
    ensures match ApplyFact(db, f, now)
      case Touched(next, n, p) =>
        var db2 := Settle(next, {p}, {n}, now);
        Inv(db2) ==>
        ResumptionsIn(db2, i) == ResumptionsIn(db, i) ||
        (ResumptionsIn(db2, i) == ResumptionsIn(db, i) + 1 && StatusIn(db, i) == Resolved && StatusIn(db2, i) == Active)
      case Ignored(next) => ResumptionsIn(next, i) == ResumptionsIn(db, i)
      case _ => true
  {
    hide ApplyFact, Settle, ResumptionsIn, FactResumes;
    var r := ApplyFact(db, f, now);
    if !r.Failed? {
      FactCount(db, f, now, i);
      if FactResumes(db, f, now, i) {
        ResumedWasResolved(db, f, now, i);
        ResumedIsHeld(db, f, {}, now, i);
      }
      if r.Touched? {
        SettleCount(r.db, {r.impact}, {r.incident}, now, i);
        if FactResumes(db, f, now, i) && Inv(Settle(r.db, {r.impact}, {r.incident}, now)) {
          SettledHeld(r.db, {r.impact}, {r.incident}, {} + {f.identity}, now, i);
        }
      }
    }
  }

  lemma SettledHeld(db: Db, ps: set<Id>, ns: set<Id>, seen: set<Identity>, now: Time, i: Id)
    requires Held(db, seen, i) && Inv(Settle(db, ps, ns, now))
    ensures StatusIn(Settle(db, ps, ns, now), i) == Active
  {
    hide Inv;
    var e :| e in db.evidence && db.evidence[e].active && db.evidence[e].incident == i && db.evidence[e].identity in seen;
    assert Settle(db, ps, ns, now).evidence == db.evidence;
    EvidencedIsActive(Settle(db, ps, ns, now), e);
  }

  // ----- The other steps -----

  lemma CloseCount(db: Db, es: set<Id>, now: Time, i: Id)
    ensures ResumptionsIn(Close(db, es, now), i) == ResumptionsIn(db, i)
  {
    hide Settle;
    SettleCount(ResolveRows(db, es, now), ImpactsTouching(db, es), IncidentsTouching(db, es), now, i);
  }

  lemma RecoverCount(db: Db, source: string, now: Time, i: Id)
    ensures ResumptionsIn(RecoverNative(db, source, now), i) == ResumptionsIn(db, i)
  {
    hide Close, AdvanceDue;
    match ActiveRow(db.evidence, NativeIdentity(source))
    case Some(e) => CloseCount(db, {e}, now, i);
    case None => RecomputeAllCount(RearmIdentity(db, NativeIdentity(source), now), now, i);
  }

  lemma ClosingCount(db: Db, step: Step, i: Id)
    requires Linked(db) && Enabled(db, step) && Attempt(db, step).Ok?
    requires step.Report? || step.Advance? || step.RuleOut? || step.ArchiveTarget? || step.Remove?
    ensures ResumptionsIn(Next(db, step), i) == ResumptionsIn(db, i)
  {
    hide Close, Settle, AdvanceDue;
    match step
    case Report(id, now) =>
      if ActiveRow(db.evidence, id).Some? {
        CloseCount(db, {ActiveRow(db.evidence, id).value}, now, i);
      }
    case Advance(now) => RecomputeAllCount(db, now, i);
    case RuleOut(n, e, now) =>
      var row := db.evidence[e].(active := false, resolvedAt := Some(now), invalidatedAt := Some(now));
      SettleCount(db.(evidence := db.evidence[e := row]), {row.impact}, {n}, now, i);
    case ArchiveTarget(t, now) => CloseCount(db.(targets := db.targets[t := Archived]), ActiveOn(db.evidence, t), now, i);
    case Remove(owner, now) => CloseCount(db, ActiveOwned(db.evidence, owner), now, i);
  }

  lemma RecordResultsIncidents(db: Db, i: Id, results: seq<AckResult>)
    ensures RecordResults(db, i, results).incidents == db.incidents
  {
  }

  lemma CorrectingCount(db: Db, step: Step, i: Id)
    requires Inv(db) && Linked(db) && Enabled(db, step) && Attempt(db, step).Ok?
    requires step.Acknowledge? || step.Answer? || step.Merge? || step.Reassign?
    ensures ResumptionsIn(Next(db, step), i) == ResumptionsIn(db, i)
  {
    hide MergeAll, ReassignAll, RecomputeIncidents, Partial;
    match step
    case Acknowledge(n, now) =>
    case Answer(n, results) => RecordResultsIncidents(db, n, results);
    case Merge(primary, secondary, order, now) =>
      var ns := IncidentsOn(db.impacts, secondary);
      MergeStart(db, secondary, order, ns);
      MergeAllOk(db, order, primary, secondary, ns, now);
      RecomputeCount(MergeAll(db, order, primary, now), ns, now, i);
    case Reassign(t, source, binding, order, now) =>
      var ns := IncidentsFrom(db.evidence, source, binding);
      ReassignStart(db, t, source, binding, order);
      PartialWider(db, ns);
      ReassignAllOk(db, order, t, source, binding, ns, now);
      RecomputeCount(ReassignAll(db, order, t, source, binding, now), ns, now, i);
  }

  lemma QuietCount(db: Db, step: Step, i: Id)
    requires Inv(db) && Linked(db) && Enabled(db, step) && !step.Observe? && !step.ObserveNative?
    ensures ResumptionsIn(Next(db, step), i) == ResumptionsIn(db, i)
  {
    hide Inv, ResolveEvidence, AdvanceDue, Invalidate, AckLocal, CompleteAck, Archive, RemoveOwner, MergeTargets, ReassignSource;
    if Attempt(db, step).Ok? {
      if step.Report? || step.Advance? || step.RuleOut? || step.ArchiveTarget? || step.Remove? {
        ClosingCount(db, step, i);
      } else if step.Acknowledge? || step.Answer? || step.Merge? || step.Reassign? {
        CorrectingCount(db, step, i);
      }
    }
  }

  // ----- Steps and runs -----

  /** The snapshot finds the incident active, takes its last evidence away and resumes it. */
  ghost predicate Flickers(db: Db, step: Step, i: Id)
    requires Linked(db)
  {
    && step.Observe? && ApplySnapshot(db, step.s).Ok? && StatusIn(db, i) == Active
    && PassFlickers(Pass(db, {}, {}, {}), Prepared(step.s), step.s.observedAt, i)
  }

  /** The step finds the incident resolved and leaves it active. */
  predicate Reactivates(db: Db, db2: Db, i: Id)
  {
    StatusIn(db, i) == Resolved && StatusIn(db2, i) == Active
  }

  function Count(b: bool): nat { if b then 1 else 0 }

  lemma RegularBalance(db: Db, i: Id, keyOf: KeyOf)
    requires Regular(db, keyOf)
    ensures ResolutionsIn(db, i) == ResumptionsIn(db, i) + if StatusIn(db, i) == Resolved then 1 else 0
  {
    hide Inv, AllBalanced;
    if i in db.incidents {
      CommittedBalance(db, i);
    }
  }

  lemma ResolutionsRise(db: Db, step: Step, i: Id)
    requires Inv(db) && Linked(db) && Enabled(db, step)
    ensures ResolutionsIn(db, i) <= ResolutionsIn(Next(db, step), i)
  {
    hide Next, Inv;
    StepEvolves(db, step, 0);
    EvolvedResolutions(db, Next(db, step), i, At(step, 0));
  }

  lemma EvolvedResolutions(db: Db, db2: Db, i: Id, now: Time)
    requires Evolves(db, db2, now)
    ensures ResolutionsIn(db, i) <= ResolutionsIn(db2, i)
  {
    if i in db.incidents {
      assert IncidentEvolves(db.incidents[i], db2.incidents[i], now);
    } else if i in db2.incidents {
      assert IncidentAppears(db2.incidents[i], now);
    }
  }

  /** What a step can do to the count, before the balance is taken into account. */
  lemma StepGains(db: Db, step: Step, i: Id, keyOf: KeyOf)
    requires Regular(db, keyOf) && Linked(db) && Enabled(db, step) && Tame(step, keyOf)
    ensures var gained := ResumptionsIn(Next(db, step), i) - ResumptionsIn(db, i);
      && (gained == 0 || (gained == 1 && StatusIn(Next(db, step), i) == Active))
      && (StatusIn(db, i) == Active ==> gained == Count(Flickers(db, step, i)))
  {
    hide ApplySnapshot, ApplyNative, PassResumes, PassFlickers, ResumptionsIn;
    if step.Observe? {
      if Attempt(db, step).Ok? {
        SnapshotCount(db, step.s, i, keyOf);
      }
    } else if step.ObserveNative? {
      if Attempt(db, step).Ok? {
        NativeCount(db, step.o, i);
      }
    } else {
      QuietCount(db, step, i);
    }
  }

  /** A tame step adds a resumption exactly if it reactivates the incident or makes it flicker. */
  lemma StepResumptions(db: Db, step: Step, i: Id, keyOf: KeyOf)
    requires Regular(db, keyOf) && Linked(db) && Enabled(db, step) && Tame(step, keyOf)
    ensures ResumptionsIn(Next(db, step), i) - ResumptionsIn(db, i) ==
      Count(Reactivates(db, Next(db, step), i)) + Count(Flickers(db, step, i))
  {
    hide Next, Regular, PassFlickers, ApplySnapshot, Tame, Enabled, ResumptionsIn, ResolutionsIn, StatusIn;
    StepKeeps(db, step, keyOf);
    StepGains(db, step, i, keyOf);
    RegularBalance(db, i, keyOf);
    RegularBalance(Next(db, step), i, keyOf);
    RegularInv(db, keyOf);
    ResolutionsRise(db, step, i);
  }

  lemma RegularInv(db: Db, keyOf: KeyOf)
    requires Regular(db, keyOf)
    ensures Inv(db)
  {
  }

  /** The steps of a run that find the incident resolved and leave it active. */
  ghost function Reactivations(db: Db, steps: seq<Step>, i: Id): nat
    decreases |steps|
  {
    if steps == [] || !Linked(db) || !Enabled(db, steps[0]) then 0
    else Count(Reactivates(db, Next(db, steps[0]), i)) + Reactivations(Next(db, steps[0]), steps[1..], i)
  }

  /** The steps of a run that make the incident flicker. */
  ghost function Flickerings(db: Db, steps: seq<Step>, i: Id): nat
    decreases |steps|
  {
    if steps == [] || !Linked(db) || !Enabled(db, steps[0]) then 0
    else Count(Flickers(db, steps[0], i)) + Flickerings(Next(db, steps[0]), steps[1..], i)
  }

  /**
   * Over a run, the resumptions an incident gains are its changes from resolved to active between committed states, and
   * one for each snapshot in which one fact takes its last evidence away and a later one resumes it.
   */
  lemma {:induction false} RunResumptions(db: Db, steps: seq<Step>, db2: Db, i: Id, keyOf: KeyOf)
    requires Regular(db, keyOf) && Reaches(db, steps, db2) && (forall k :: 0 <= k < |steps| ==> Tame(steps[k], keyOf))
    ensures ResumptionsIn(db2, i) - ResumptionsIn(db, i) == Reactivations(db, steps, i) + Flickerings(db, steps, i)
    decreases |steps|
  {
    hide Next, Regular, ResumptionsIn, Flickers, Reactivates, Tame;
    if steps != [] {
      StepKeeps(db, steps[0], keyOf);
      StepResumptions(db, steps[0], i, keyOf);
      RunResumptions(Next(db, steps[0]), steps[1..], db2, i, keyOf);
    }
  }
}
