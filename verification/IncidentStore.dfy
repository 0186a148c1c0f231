/** The store itself: the tables as fields, every transaction as a method that updates them in place. */
module IncidentStore {
  import opened Common
  import opened Trigger
  import opened IncidentModel
  import opened IncidentCycle
  import opened IncidentSnapshot
  import opened IncidentStructure
  import opened IncidentInvariants
  import opened IncidentAggregates
  import opened IncidentAcknowledgement
  import opened IncidentIdentities
  import opened IncidentPlacement
  import opened IncidentTransactions
  import opened IncidentStructureProofs
  import opened IncidentStoreSteps
  import opened IncidentDeadlines

  /** What applying a fact reports to the transaction around it. */
  datatype FactReport = Impacted(incident: Id, impact: Id) | Nothing | OffTarget | Failure(error: Error)

  /** The report and the tables say what the specification says; after a failure the tables are rolled back. */
  ghost predicate Describes(r: FactReport, db: Db, a: Applied)
  {
    match r
    case Impacted(i, p) => a == Touched(db, i, p)
    case Nothing => a == Ignored(db)
    case OffTarget => a == Skipped(db)
    case Failure(error) => a == Failed(error)
  }

  /** Impact `p` of incident `i` is there, and no impact or incident is lost. */
  ghost predicate Grown(db: Db, db2: Db, i: Id, p: Id)
  {
    && db.incidents.Keys <= db2.incidents.Keys && db.impacts.Keys <= db2.impacts.Keys
    && i in db2.incidents && p in db2.impacts
  }

  ghost predicate Progressed(db: Db, db2: Db, r: FactReport)
  {
    && db.incidents.Keys <= db2.incidents.Keys && db.impacts.Keys <= db2.impacts.Keys
    && (r.Impacted? ==> Grown(db, db2, r.incident, r.impact))
  }

  /** A transaction commits what the specification says, or fails with its error and leaves the tables as they were. */
  ghost predicate Commits(r: Result<(), Error>, before: Db, after: Db, spec: Result<Db, Error>)
  {
    match spec
    case Ok(db) => r.Ok? && after == db
    case Err(error) => r == Err(error) && after == before
  }

  class Store {
    var targets: map<string, Target>
    var connectors: map<string, int>
    var sources: map<string, Source>
    var incidents: map<Id, Incident>
    var impacts: map<Id, Impact>
    var evidence: map<Id, Evidence>
    var next: Id

    ghost function State(): (db: Db)
      reads this
    {
      Db(targets, connectors, sources, incidents, impacts, evidence, next)
    }

    ghost predicate Valid()
      reads this
    {
      Inv(State()) && Linked(State())
    }

    constructor ()
      ensures Valid() && incidents == map[] && impacts == map[] && evidence == map[]
    {
      targets, connectors, sources := map[], map[], map[];
      incidents, impacts, evidence := map[], map[], map[];
      next := 0;
    }

    // ----- Recomputation -----

    method RecomputeImpact(p: Id, now: Time)
      requires p in impacts
      modifies this`impacts
      ensures State() == RecomputeImpacts(old(State()), {p}, now) && impacts.Keys == old(impacts.Keys)
    {
      impacts := impacts[p := DerivedImpact(evidence, p, impacts[p], now)];
      assert impacts == RecomputeImpacts(old(State()), {p}, now).impacts;
    }

    method RecomputeIncident(i: Id, now: Time)
      requires i in incidents
      modifies this`incidents
      ensures State() == RecomputeIncidents(old(State()), {i}, now)
      ensures incidents == old(incidents)[i := incidents[i]]
    {
      var row := Aggregated(impacts, LiveTargetCount(targets), i, incidents[i], now);
      incidents := incidents[i := WithSync(evidence, i, row)];
      assert incidents == RecomputeIncidents(old(State()), {i}, now).incidents;
    }

    method RecomputeImpactSet(ps: set<Id>, now: Time)
      requires ps <= impacts.Keys
      modifies this`impacts
      ensures State() == RecomputeImpacts(old(State()), ps, now)
    {
      var todo := ps;
      ghost var done: set<Id> := {};
      NothingRecomputed(State(), now);
      while todo != {}
        invariant todo <= ps && done == ps - todo && impacts.Keys == old(impacts.Keys)
        invariant State() == RecomputeImpacts(old(State()), done, now)
        decreases |todo|
      {
        var p :| p in todo;
        RecomputeImpact(p, now);
        RecomputeImpactsStep(old(State()), done, p, now);
        todo, done := todo - {p}, done + {p};
      }
      assert done == ps;
    }

    /** Recomputes incidents and counts those that this resolves. */
    method RecomputeIncidentSet(ns: set<Id>, now: Time) returns (resolved: nat)
      requires ns <= incidents.Keys
      modifies this`incidents
      ensures State() == RecomputeIncidents(old(State()), ns, now)
      ensures resolved == |NewlyResolved(old(incidents), incidents)|
    {
      var todo := ns;
      ghost var done: set<Id> := {};
      resolved := 0;
      NothingRecomputed(State(), now);
      assert NewlyResolved(incidents, incidents) == {};
      while todo != {}
        invariant todo <= ns && done == ns - todo && incidents.Keys == old(incidents.Keys)
        invariant State() == RecomputeIncidents(old(State()), done, now)
        invariant resolved == |NewlyResolved(old(incidents), incidents)|
        decreases |todo|
      {
        var i :| i in todo;
        var before := incidents;
        RecomputeIncident(i, now);
        RecomputeIncidentsStep(old(State()), done, i, now);
        NewlyResolvedStep(old(incidents), before, incidents, i);
        if before[i].status != Resolved && incidents[i].status == Resolved {
          resolved := resolved + 1;
        }
        todo, done := todo - {i}, done + {i};
      }
      assert done == ns;
    }

    method SettleRows(ps: set<Id>, ns: set<Id>, now: Time) returns (resolved: nat)
      requires ps <= impacts.Keys && ns <= incidents.Keys
      modifies this`impacts, this`incidents
      ensures State() == Settle(old(State()), ps, ns, now)
      ensures impacts.Keys == old(impacts.Keys) && incidents.Keys == old(incidents.Keys)
      ensures resolved == |NewlyResolved(old(incidents), incidents)|
    {
      RecomputeImpactSet(ps, now);
      resolved := RecomputeIncidentSet(ns, now);
    }

    method AdvanceDueIncidents(now: Time)
      modifies this`incidents
      ensures State() == AdvanceDue(old(State()), now)
      // exactly the active incidents whose open window has run out are closed, and resolved if nothing is affected any more
      ensures incidents.Keys == old(incidents.Keys)
      ensures forall i :: i in incidents ==> !(incidents[i].status == Active && incidents[i].propagation == Open && incidents[i].endsAt <= now)
      ensures forall i :: i in incidents ==>
        var row := old(incidents)[i];
        if row.status == Active && row.propagation == Open && row.endsAt <= now then
          && incidents[i].propagation == Closed && incidents[i].closedAt == Some(now)
          && (incidents[i].status == Resolved <==> forall p :: p in impacts && impacts[p].incident == i ==> impacts[p].status == Resolved)
          && (incidents[i].status == Resolved ==> incidents[i].resolvedAt == Some(now))
        else incidents[i] == row
    {
      AdvanceOnColumns(State(), now);
      var due := set i | i in incidents && incidents[i].status == Active &&
        incidents[i].propagation == Open && incidents[i].endsAt <= now;
      var _ := RecomputeIncidentSet(due, now);
    }

    method CloseEvidence(e: Id, now: Time)
      modifies this`evidence
      ensures State() == ResolveRows(old(State()), {e}, now)
    {
      if e in evidence && evidence[e].active {
        evidence := evidence[e := evidence[e].(active := false, resolvedAt := Some(now))];
      }
      assert evidence == ResolveRows(old(State()), {e}, now).evidence;
    }

    method CloseEvidenceSet(es: set<Id>, now: Time)
      modifies this`evidence
      ensures State() == ResolveRows(old(State()), es, now)
    {
      var todo := es;
      ghost var done: set<Id> := {};
      NothingRecomputed(State(), now);
      while todo != {}
        invariant todo <= es && done == es - todo
        invariant State() == ResolveRows(old(State()), done, now)
        decreases |todo|
      {
        var e :| e in todo;
        CloseEvidence(e, now);
        ResolveRowsStep(old(State()), done, e, now);
        todo, done := todo - {e}, done + {e};
      }
      assert done == es;
    }

    // ----- Acknowledgement -----

    /** Counts the active Zabbix rows of an incident, those that wait and those that failed. */
    method CountRemote(i: Id) returns (total: nat, pending: nat, failed: nat)
      ensures total == |RemoteRows(evidence, i)|
      ensures pending == |RemoteRowsWith(evidence, i, Pending)| && failed == |RemoteRowsWith(evidence, i, SyncFailed)|
    {
      var todo := evidence.Keys;
      ghost var seen: map<Id, Evidence> := map[];
      total, pending, failed := 0, 0, 0;
      while todo != {}
        invariant todo <= evidence.Keys && seen == map e | e in evidence && e !in todo :: evidence[e]
        invariant total == |RemoteRows(seen, i)|
        invariant pending == |RemoteRowsWith(seen, i, Pending)| && failed == |RemoteRowsWith(seen, i, SyncFailed)|
        decreases |todo|
      {
        var e :| e in todo;
        RemoteRowsStep(seen, e, evidence[e], i);
        RemoteRowsWithStep(seen, e, evidence[e], i, Pending);
        RemoteRowsWithStep(seen, e, evidence[e], i, SyncFailed);
        if Remote(evidence[e], i) {
          total := total + 1;
          pending := pending + if evidence[e].ackSync == Pending then 1 else 0;
          failed := failed + if evidence[e].ackSync == SyncFailed then 1 else 0;
        }
        todo, seen := todo - {e}, seen[e := evidence[e]];
      }
      assert seen == evidence;
    }

    /** An acknowledged incident gets the status its active Zabbix rows call for; any other incident is left. */
    method RecomputeAcknowledgement(i: Id)
      requires i in incidents
      modifies this`incidents
      ensures State() == RecomputeAck(old(State()), i)
      ensures incidents == old(incidents)[i := old(incidents)[i].(ackSync := incidents[i].ackSync)]
      ensures incidents[i].acknowledgedAt.Some? ==> Calls(evidence, i, incidents[i].ackSync)
      ensures incidents[i].acknowledgedAt.None? ==> incidents == old(incidents)
    {
      var total, pending, failed := CountRemote(i);
      CountsDecide(evidence, i);
      if incidents[i].acknowledgedAt.Some? {
        var sync := if total == 0 then NotApplicable else if failed > 0 then SyncFailed else if pending > 0 then Pending else Synchronized;
        incidents := incidents[i := incidents[i].(ackSync := sync)];
      }
    }

    method QueueForAcknowledgement(i: Id)
      modifies this`evidence
      ensures State() == QueueEvidence(old(State()), i)
    {
      evidence := map e | e in evidence ::
        if Remote(evidence[e], i) then
          evidence[e].(ackSync := if evidence[e].upstream then Synchronized else Pending)
        else evidence[e];
    }

    method AcknowledgeFromEvidence(i: Id, now: Time)
      requires i in incidents && Linked(State())
      modifies this`incidents, this`evidence
      ensures State() == AckFromEvidence(old(State()), i, now) && incidents.Keys == old(incidents.Keys)
    {
      if incidents[i].acknowledgedAt.None? {
        incidents := incidents[i := incidents[i].(acknowledgedAt := Some(now))];
        QueueForAcknowledgement(i);
      }
      RecomputeAcknowledgement(i);
    }

    // ----- Facts -----

    method FindImpactOn(i: Id, target: string) returns (r: Option<Id>)
      ensures r == ImpactOn(impacts, i, target)
    {
      r := SelectFirst(map p | p in impacts && impacts[p].incident == i && impacts[p].target == target :: 0);
    }

    method JoinIncident(i: Id, f: Fact) returns (p: Id)
      requires ValidSeverity(f.severity) && i in incidents
      modifies this`incidents, this`impacts, this`next
      ensures Opened(State(), i, p) == Join(old(State()), i, f)
      ensures Grown(old(State()), State(), i, p)
    {
      var window := EvidenceWindow(Db(targets, connectors, sources, incidents, impacts, evidence, next), f);
      var found := FindImpactOn(i, f.target);
      incidents := incidents[i := ExtendPropagation(incidents[i], f.openedAt, window)];
      match found
      case Some(q) =>
        impacts := impacts[q := Reopen(impacts[q], f)];
        p := q;
      case None =>
        impacts := impacts[next := NewImpact(i, f)];
        p := next;
        next := next + 1;
    }

    method ResumeIncident(q: Id, f: Fact, now: Time) returns (i: Id)
      requires ValidSeverity(f.severity) && q in impacts && impacts[q].incident in incidents
      modifies this`incidents, this`impacts
      ensures Opened(State(), i, q) == Resume(old(State()), q, f, now)
      ensures Grown(old(State()), State(), i, q)
      // one resumption more and an active impact, while the incident keeps its status until it is recomputed
      ensures incidents[i].resumptions == old(incidents)[i].resumptions + 1 && incidents[i].status == old(incidents)[i].status
      ensures incidents == old(incidents)[i := incidents[i]] && impacts == old(impacts)[q := impacts[q]]
      ensures impacts[q].status == Active && impacts[q].resolvedAt.None? && impacts[q].openedAt == old(impacts)[q].openedAt
    {
      i := impacts[q].incident;
      impacts := impacts[q := Reopen(impacts[q], f)];
      incidents := incidents[i := incidents[i].(resumptions := incidents[i].resumptions + 1, resumedAt := Some(now))];
    }

    method CreateIncident(f: Fact, now: Time) returns (i: Id, p: Id)
      requires ValidSeverity(f.severity)
      modifies this`incidents, this`impacts, this`next
      ensures Opened(State(), i, p) == Create(old(State()), f, now)
      ensures Grown(old(State()), State(), i, p)
      // an active incident of the fact's nature whose window lasts one to five minutes, closed at once if it may not spread
      ensures incidents[i].nature == f.nature && incidents[i].status == Active && IncidentRow(incidents[i])
      ensures 60 <= incidents[i].window <= 300 && incidents[i].endsAt == f.openedAt + incidents[i].window
      ensures incidents[i].propagation == Closed <==> !f.nature.eligible
      ensures impacts[p] == NewImpact(i, f) && incidents[i].resumptions == 0 && incidents[i].resolutions == 0
    {
      var window := EvidenceWindow(Db(targets, connectors, sources, incidents, impacts, evidence, next), f);
      i, p := next, next + 1;
      incidents := incidents[i := Incident(
        f.nature, Active, if f.nature.eligible then Open else Closed, f.severity,
        f.openedAt, f.openedAt, window, f.openedAt + window,
        if f.nature.eligible then None else Some(now), None,
        None, NotApplicable, 1, 1, 1, false, 0, None, 0)];
      impacts := impacts[p := NewImpact(i, f)];
      next := next + 2;
    }

    method FindActiveImpact(f: Fact) returns (r: Option<Id>)
      requires Linked(State())
      ensures r == ActiveImpact(State(), f)
    {
      var db := Begin();
      r := SelectFirst(map p | p in impacts && Hosts(db, p, f.target, f.nature.key) :: -impacts[p].openedAt);
    }

    method FindPropagatingIncident(f: Fact) returns (r: Option<Id>)
      ensures r == PropagatingIncident(State(), f)
    {
      if f.nature.eligible {
        r := SelectFirst(map i | i in incidents && Propagates(incidents[i], f) :: incidents[i].openedAt);
      } else {
        r := None;
      }
    }

    method FindResumableImpact(f: Fact, now: Time) returns (r: Option<Id>)
      requires Linked(State())
      ensures r == ResumableImpact(State(), f, now)
    {
      var db := Begin();
      r := SelectFirst(map p | p in impacts && Resumable(db, p, f, now) :: -incidents[impacts[p].incident].resolvedAt.value);
    }

    /** Finds or opens the impact of a fact: an active one, a propagating incident, a resumption, or a new incident. */
    method EnsureImpact(f: Fact, now: Time) returns (i: Id, p: Id)
      requires ValidSeverity(f.severity) && Linked(State())
      modifies this`incidents, this`impacts, this`next
      ensures Opened(State(), i, p) == OpenImpact(old(State()), f, now)
      ensures Grown(old(State()), State(), i, p)
    {
      var active := FindActiveImpact(f);
      if active.Some? {
        return impacts[active.value].incident, active.value;
      }
      var propagating := FindPropagatingIncident(f);
      if propagating.Some? {
        i := propagating.value;
        p := JoinIncident(i, f);
        return;
      }
      var resumable := FindResumableImpact(f, now);
      if resumable.Some? {
        p := resumable.value;
        i := ResumeIncident(p, f, now);
        return;
      }
      i, p := CreateIncident(f, now);
    }

    method RecordEvidence(f: Fact, i: Id, p: Id, now: Time)
      requires ValidSeverity(f.severity) && i in incidents && Linked(State())
      modifies this`incidents, this`evidence, this`next
      ensures State() == AddEvidence(old(State()), f, i, p, now) && incidents.Keys == old(incidents.Keys)
    {
      var inherits := !f.upstream && f.identity.origin == Zabbix && incidents[i].acknowledgedAt.Some?;
      evidence := evidence[next := NewEvidence(f, i, p, inherits)];
      next := next + 1;
      if inherits {
        incidents := incidents[i := incidents[i].(ackSync := Pending)];
      }
      assert State() == InsertEvidence(old(State()), f, i, p);
      if f.upstream {
        AcknowledgeFromEvidence(i, now);
      }
    }

    method RefreshEvidence(e: Id, f: Fact, now: Time)
      requires ValidSeverity(f.severity) && e in evidence && Linked(State())
      modifies this`incidents, this`evidence
      ensures State() == Refresh(old(State()), e, f, now) && incidents.Keys == old(incidents.Keys)
    {
      var row := evidence[e];
      var sync := if f.upstream then Synchronized
        else if incidents[row.incident].acknowledgedAt.Some? then Pending else row.ackSync;
      evidence := evidence[e := row.(severity := f.severity, upstream := f.upstream, ackSync := sync)];
      assert State() == RefreshRow(old(State()), e, f);
      if f.upstream {
        AcknowledgeFromEvidence(row.incident, now);
      }
    }

    method FindActiveEvidence(id: Identity) returns (r: Option<Id>)
      ensures r == ActiveRow(evidence, id)
    {
      r := SelectFirst(map e | e in evidence && evidence[e].active && evidence[e].identity == id :: 0);
    }

    method OpenNewEvidence(f: Fact, now: Time) returns (r: FactReport)
      requires ValidSeverity(f.severity) && Linked(State())
      modifies this`incidents, this`impacts, this`evidence, this`next
      ensures Describes(r, State(), OpenFact(old(State()), f, now))
      ensures Progressed(old(State()), State(), r)
    {
      if exists e :: e in evidence && Unarmed(evidence[e]) && evidence[e].identity == f.identity {
        return Nothing;
      }
      if f.target !in targets {
        return Failure(NotFound);
      }
      if targets[f.target] != Live {
        return OffTarget;
      }
      var i, p := EnsureImpact(f, now);
      RecordEvidence(f, i, p, now);
      return Impacted(i, p);
    }

    /** Applies one fact: refreshes, suppresses, moves or opens the evidence carrying its identity. */
    method ApplyEvidenceFact(f: Fact, now: Time) returns (r: FactReport)
      requires Shape(State()) && Linked(State())
      modifies this`incidents, this`impacts, this`evidence, this`next
      ensures Describes(r, State(), ApplyFact(old(State()), f, now))
      ensures Progressed(old(State()), State(), r)
    {
      if !Complete(f) {
        return Failure(InvalidInput);
      }
      var found := FindActiveEvidence(f.identity);
      if found.Some? {
        var e := found.value;
        var row := evidence[e];
        if row.invalidatedAt.Some? {
          return Impacted(row.incident, row.impact);
        }
        if row.target == f.target && incidents[row.incident].nature.key == f.nature.key {
          RefreshEvidence(e, f, now);
          return Impacted(row.incident, row.impact);
        }
        CloseEvidence(e, now);
        assert row.impact in impacts;
        var _ := SettleRows({row.impact}, {row.incident}, now);
        assert State() == Retire(old(State()), e, now);
        RetireShape(old(State()), e, now);
      }
      r := OpenNewEvidence(f, now);
    }

    // ----- Transactions -----

    method Begin() returns (db: Db)
      ensures db == State()
    {
      db := Db(targets, connectors, sources, incidents, impacts, evidence, next);
    }

    method Rollback(db: Db)
      modifies this
      ensures State() == db
    {
      targets, connectors, sources := db.targets, db.connectors, db.sources;
      incidents, impacts, evidence, next := db.incidents, db.impacts, db.evidence, db.next;
    }

    /** One fact of a snapshot: facts whose identity was seen before are skipped. */
    method ApplyNextFact(f: Fact, seen: set<Identity>, ps: set<Id>, ns: set<Id>, now: Time)
      returns (r: Result<(set<Identity>, set<Id>, set<Id>), Error>)
      requires PassOk(Pass(State(), seen, ps, ns)) && Linked(State())
      requires ps <= impacts.Keys && ns <= incidents.Keys
      modifies this`incidents, this`impacts, this`evidence, this`next
      ensures r.Ok? ==>
        var (seen2, ps2, ns2) := r.value;
        && ApplyOne(Pass(old(State()), seen, ps, ns), f, now) == Ok(Pass(State(), seen2, ps2, ns2))
        && PassOk(Pass(State(), seen2, ps2, ns2)) && Linked(State())
        && ps2 <= impacts.Keys && ns2 <= incidents.Keys
      ensures r.Err? ==> ApplyOne(Pass(old(State()), seen, ps, ns), f, now) == Err(r.error)
    {
      hide Partial, ApplyFact;
      if f.identity in seen {
        return Ok((seen, ps, ns));
      }
      PartialShape(State(), ps, ns);
      ApplyOneOk(Pass(State(), seen, ps, ns), f, now);
      var report := ApplyEvidenceFact(f, now);
      match report
      case Impacted(i, p) => r := Ok((seen + {f.identity}, ps + {p}, ns + {i}));
      case Nothing => r := Ok((seen + {f.identity}, ps, ns));
      case OffTarget => r := Ok((seen + {f.identity}, ps, ns));
      case Failure(error) => r := Err(error);
    }

    /** What a snapshot observed gone is closed and re-armed, then everything touched is recomputed. */
    method FinishSnapshot(s: Snapshot, seen: set<Identity>, ps: set<Id>, ns: set<Id>)
      requires PassOk(Pass(State(), seen, ps, ns)) && Linked(State())
      requires ps <= impacts.Keys && ns <= incidents.Keys
      modifies this`incidents, this`impacts, this`evidence
      ensures State() == Finish(Pass(old(State()), seen, ps, ns), s)
      ensures Valid()
    {
      hide Partial, Settle, AdvanceDue;
      var now := s.observedAt;
      FinishInv(Pass(State(), seen, ps, ns), s);
      PartialShape(State(), ps, ns);
      var gone := set e | e in evidence && evidence[e].active && Observes(s, evidence[e]) && evidence[e].identity !in seen;
      var goneImpacts := set e | e in gone :: evidence[e].impact;
      var goneIncidents := set e | e in gone :: evidence[e].incident;
      assert gone == Gone(State(), s, seen);
      assert goneImpacts == ImpactsTouching(State(), gone) && goneIncidents == IncidentsTouching(State(), gone);
      TouchingPresent(State(), gone);
      CloseEvidenceSet(gone, now);
      RearmRecovered(s, seen, now);
      var _ := SettleRows(ps + goneImpacts, ns + goneIncidents, now);
      AdvanceDueIncidents(now);
      PartialLinks(State(), {}, {});
    }

    method RearmRecovered(s: Snapshot, seen: set<Identity>, now: Time)
      modifies this`evidence
      ensures State() == Rearm(old(State()), s, seen, now) && evidence.Keys == old(evidence).Keys
      // an invalidation stays in force exactly if it was, and is unobserved or still reported
      ensures forall e :: e in evidence ==> (Unarmed(evidence[e]) <==>
        Unarmed(old(evidence)[e]) && !(Observes(s, old(evidence)[e]) && old(evidence)[e].identity !in seen))
      ensures forall e :: e in evidence ==> evidence[e] == old(evidence)[e].(rearmedAt := evidence[e].rearmedAt)
    {
      hide Observes, Unarmed, Rearmed, Rearm;
      var candidates := set e | e in evidence && Unarmed(evidence[e]) && Observes(s, evidence[e]);
      var todo := candidates;
      while todo != {}
        invariant todo <= candidates && evidence.Keys == old(evidence).Keys
        invariant forall e :: e in evidence && e in candidates - todo && old(evidence)[e].identity !in seen ==>
          evidence[e] == Rearmed(old(evidence)[e], now)
        invariant forall e :: e in evidence && !(e in candidates - todo && old(evidence)[e].identity !in seen) ==>
          evidence[e] == old(evidence)[e]
        decreases |todo|
      {
        var e :| e in todo;
        if evidence[e].identity !in seen {
          evidence := evidence[e := Rearmed(evidence[e], now)];
        }
        todo := todo - {e};
      }
      RearmIs(old(State()), s, seen, now, candidates, evidence);
    }

    method ApplyEvidenceSnapshot(s: Snapshot) returns (r: Result<(), Error>)
      requires Valid()
      modifies this
      ensures Valid()
      ensures Commits(r, old(State()), State(), ApplySnapshot(old(State()), s))
    {
      hide Partial, Finish;
      if !s.leaseValid {
        return Err(LeaseLost);
      }
      var before := Begin();
      var facts, now := Prepared(s), s.observedAt;
      var seen: set<Identity>, ps: set<Id>, ns: set<Id> := {}, {}, {};
      var k := 0;
      assert facts[0..] == facts;
      while k < |facts|
        invariant 0 <= k <= |facts|
        invariant PassOk(Pass(State(), seen, ps, ns)) && Linked(State()) && ps <= impacts.Keys && ns <= incidents.Keys
        invariant ApplyFacts(Pass(State(), seen, ps, ns), facts[k..], now) == ApplyFacts(Pass(before, {}, {}, {}), facts, now)
      {
        assert facts[k..][0] == facts[k] && facts[k..][1..] == facts[k + 1..];
        var step := ApplyNextFact(facts[k], seen, ps, ns, now);
        if step.Err? {
          Rollback(before);
          return Err(step.error);
        }
        var (seen2, ps2, ns2) := step.value;
        seen, ps, ns := seen2, ps2, ns2;
        k := k + 1;
      }
      assert facts[k..] == [];
      FinishSnapshot(s, seen, ps, ns);
      r := Ok(());
    }

    /** Closes a set of active rows and recomputes what they belonged to; tells how many incidents that resolves. */
    method CloseAndSettle(es: set<Id>, now: Time) returns (resolved: nat)
      requires Shape(State())
      modifies this`incidents, this`impacts, this`evidence
      ensures State() == Close(old(State()), es, now)
      ensures resolved == |NewlyResolved(old(incidents), incidents)|
    {
      hide Settle;
      var ps := set e | e in es && e in evidence :: evidence[e].impact;
      var ns := set e | e in es && e in evidence :: evidence[e].incident;
      assert ps == ImpactsTouching(State(), es) && ns == IncidentsTouching(State(), es);
      TouchingPresent(State(), es);
      CloseEvidenceSet(es, now);
      resolved := SettleRows(ps, ns, now);
    }

    /** A webhook reports the end of one condition. */
    method ResolveReported(id: Identity, now: Time)
      requires Valid()
      modifies this`incidents, this`impacts, this`evidence
      ensures Valid() && State() == ResolveEvidence(old(State()), id, now)
    {
      hide Partial, Close;
      PartialShape(State(), {}, {});
      ResolveEvidenceInv(State(), id, now);
      var found := FindActiveEvidence(id);
      if found.Some? {
        var _ := CloseAndSettle({found.value}, now);
        PartialLinks(State(), {}, {});
      }
    }

    method AdvanceIncidents(now: Time)
      requires Valid()
      modifies this`incidents
      ensures Valid() && State() == AdvanceDue(old(State()), now)
      ensures forall i :: i in incidents && incidents[i].status == Active ==> incidents[i].propagation == Closed || now < incidents[i].endsAt
      ensures forall i :: i in incidents && incidents[i].endsAt <= now && incidents[i].status == Active ==>
        exists p :: p in impacts && impacts[p].incident == i && impacts[p].status == Active
    {
      hide Partial, AdvanceDue, Affects;
      AdvanceDueInv(State(), now);
      AdvanceDueIncidents(now);
      AffectedWhileActive(State(), now);
      PartialLinks(State(), {}, {});
    }

    // ----- Native checks -----

    method RecoverNativeEvidence(source: string, now: Time)
      requires Shape(State())
      modifies this`incidents, this`impacts, this`evidence
      ensures State() == RecoverNative(old(State()), source, now)
    {
      hide Close, AdvanceDue;
      var found := FindActiveEvidence(NativeIdentity(source));
      if found.Some? {
        var _ := CloseAndSettle({found.value}, now);
      } else {
        evidence := map e | e in evidence ::
          if Unarmed(evidence[e]) && evidence[e].identity == NativeIdentity(source) then Rearmed(evidence[e], now)
          else evidence[e];
        assert State() == RearmIdentity(old(State()), NativeIdentity(source), now);
        AdvanceDueIncidents(now);
      }
    }

    method ApplyDecision(o: Observation, severity: Severity, decision: Decision) returns (r: Result<(), Error>)
      requires Shape(State()) && Linked(State())
      modifies this`incidents, this`impacts, this`evidence, this`next
      ensures match NativeEffect(old(State()), o, severity, decision)
        case Ok(db) => r.Ok? && State() == db
        case Err(error) => r == Err(error)
    {
      hide ApplyFact, Settle, AdvanceDue, RecoverNative, Shape;
      r := Ok(());
      if decision.triggered {
        var report := ApplyEvidenceFact(NativeFact(o, severity), o.observedAt);
        match report
        case Impacted(i, p) =>
          var _ := SettleRows({p}, {i}, o.observedAt);
        case Nothing =>
        case OffTarget => r := Err(TargetArchived);
        case Failure(error) => r := Err(error);
      } else if decision.recovered {
        RecoverNativeEvidence(o.source, o.observedAt);
      } else {
        AdvanceDueIncidents(o.observedAt);
      }
    }

    method ApplyNativeObservation(o: Observation) returns (r: Result<(), Error>)
      requires Valid()
      modifies this
      ensures Valid()
      ensures Commits(r, old(State()), State(), ApplyNative(old(State()), o))
    {
      hide Partial, NativeEffect, Evaluate, Shape;
      if o.source !in sources {
        return Err(NotFound);
      }
      var before := Begin();
      NativeInv(State(), o);
      var source := sources[o.source];
      var decision := Evaluate(source.policy, source.streaks, o.outcome);
      CountedShape(State(), o.source, decision.streaks);
      sources := sources[o.source := source.(streaks := decision.streaks)];
      r := ApplyDecision(o, source.severity, decision);
      if r.Err? {
        Rollback(before);
      } else {
        PartialLinks(State(), {}, {});
      }
    }

    // ----- Administration -----

    method InvalidateEvidence(i: Id, e: Id, now: Time) returns (r: Result<(), Error>)
      requires Valid()
      modifies this`incidents, this`impacts, this`evidence
      ensures Valid()
      ensures Commits(r, old(State()), State(), Invalidate(old(State()), i, e, now))
    {
      hide Partial, Settle;
      if e !in evidence || !evidence[e].active || evidence[e].incident != i {
        return Err(NotFound);
      }
      InvalidateInv(State(), i, e, now);
      PartialShape(State(), {}, {});
      var p := evidence[e].impact;
      RowPresent(State(), e);
      evidence := evidence[e := evidence[e].(active := false, resolvedAt := Some(now), invalidatedAt := Some(now))];
      var _ := SettleRows({p}, {i}, now);
      PartialLinks(State(), {}, {});
      r := Ok(());
    }

    /** Acknowledges an incident and plans the evidence its acknowledgement still has to reach. */
    method AcknowledgeLocal(i: Id, now: Time) returns (r: Result<set<Id>, Error>)
      requires Valid()
      modifies this`incidents, this`evidence
      ensures Valid()
      ensures match AckLocal(old(State()), i, now)
        case Ok(db) => State() == db && r == Ok(Plan(evidence, i)) && Acknowledged(State(), i)
        case Err(error) => State() == old(State()) && r == Err(error)
    {
      hide Partial;
      if i !in incidents {
        return Err(NotFound);
      }
      if incidents[i].status == Resolved {
        return Err(Conflict);
      }
      AckLocalInv(State(), i, now);
      if incidents[i].acknowledgedAt.None? {
        var external := exists e :: e in evidence && Remote(evidence[e], i);
        incidents := incidents[i := incidents[i].(
          acknowledgedAt := Some(now), ackSync := if external then Pending else NotApplicable)];
        QueueForAcknowledgement(i);
      }
      PartialLinks(State(), {}, {});
      r := Ok(Plan(evidence, i));
    }

    /** Records the answers of the monitoring servers, in their order. */
    method CompleteAcknowledgement(i: Id, results: seq<AckResult>)
      requires Valid()
      modifies this`incidents, this`evidence
      ensures i in old(incidents) ==> State() == CompleteAck(old(State()), i, results)
      ensures i !in old(incidents) ==> State() == old(State())
      ensures old(i in incidents ==> incidents[i].acknowledgedAt.Some?) ==> Valid()
    {
      hide Partial, WithSync;
      if i in incidents && incidents[i].acknowledgedAt.Some? {
        CompleteAckInv(State(), i, results);
      }
      NothingToAnswer(State(), i, results);
      for k := 0 to |results|
        invariant State() == RecordResults(old(State()), i, results[..k]) && incidents == old(incidents)
      {
        assert results[..k + 1][..k] == results[..k];
        RecordAnswer(i, results[k]);
      }
      assert results[..|results|] == results;
      if i in incidents {
        RecomputeAcknowledgement(i);
      }
      if old(i in incidents && incidents[i].acknowledgedAt.Some?) {
        PartialLinks(State(), {}, {});
      }
    }

    method RecordAnswer(i: Id, r: AckResult)
      modifies this`evidence
      ensures State() == RecordResult(old(State()), i, r)
    {
      if r.evidence in evidence && Remote(evidence[r.evidence], i) {
        var row := evidence[r.evidence];
        evidence := evidence[r.evidence := row.(
          ackSync := if r.succeeded then Synchronized else SyncFailed, upstream := row.upstream || r.succeeded)];
      }
    }

    method ArchiveTarget(target: string, now: Time) returns (r: Result<(), Error>)
      requires Valid()
      modifies this`targets, this`incidents, this`impacts, this`evidence
      ensures Valid()
      ensures Commits(r, old(State()), State(), Archive(old(State()), target, now))
    {
      hide Partial, Close;
      if target !in targets || targets[target] != Live {
        return Err(NotFound);
      }
      ArchiveInv(State(), target, now);
      PartialShape(State(), {}, {});
      ArchivedShape(State(), target);
      targets := targets[target := Archived];
      var _ := CloseAndSettle(ActiveOn(evidence, target), now);
      PartialLinks(State(), {}, {});
      r := Ok(());
    }

    /** The evidence of a removed check or connector is closed before its owner disappears. */
    method RemoveEvidenceOwner(owner: Owner, now: Time) returns (resolved: nat)
      requires Valid()
      modifies this`incidents, this`impacts, this`evidence
      ensures Valid() && State() == RemoveOwner(old(State()), owner, now)
      ensures resolved == |NewlyResolved(old(incidents), incidents)|
    {
      hide Partial, Close;
      RemoveOwnerInv(State(), owner, now);
      PartialShape(State(), {}, {});
      resolved := CloseAndSettle(ActiveOwned(evidence, owner), now);
      evidence := map e | e in evidence ::
        if !Owns(owner, evidence[e]) then evidence[e]
        else if owner.OwnerSource? then evidence[e].(source := "")
        else evidence[e].(connector := "", binding := "");
      PartialLinks(State(), {}, {});
    }

    /** Acknowledges an incident and asks the monitoring server about each planned row. */
    method Acknowledge(i: Id, now: Time, accepts: Id -> bool) returns (r: Result<(), Error>)
      requires Valid()
      modifies this`incidents, this`evidence
      ensures Valid()
      ensures r.Err? ==> State() == old(State())
      ensures r.Ok? <==> i in old(incidents) && old(incidents)[i].status == Active
      ensures r.Ok? ==> Acknowledged(State(), i) && AskedAbout(old(State()), i, evidence, accepts)
    {
      hide Partial, Plan, Remote, CompleteAck, AskedAbout;
      var plan := AcknowledgeLocal(i, now);
      if plan.Err? {
        return Err(plan.error);
      }
      ghost var planned := State();
      if plan.value == {} {
        Asked(old(State()), i, now, {}, evidence, accepts);
        return Ok(());
      }
      var todo, results := plan.value, [];
      while todo != {}
        invariant todo <= plan.value && Answers(results, plan.value - todo, accepts)
        invariant State() == planned && Valid() && Acknowledged(State(), i)
        decreases |todo|
      {
        var e :| e in todo;
        results := results + [AckResult(e, accepts(e))];
        AnswersSnoc(results, plan.value, todo, e, accepts);
        todo := todo - {e};
      }
      assert plan.value - {} == plan.value;
      CompleteAcknowledgement(i, results);
      CompleteAckRows(planned, i, results);
      RecordResultsAre(planned, i, results, plan.value, accepts);
      Asked(old(State()), i, now, plan.value, evidence, accepts);
      r := Ok(());
    }

    // ----- Structural corrections -----

    /** Impact `s` moves to the kept target, where `found` is the impact that target already has in the same incident. */
    method MergeImpact(s: Id, found: Option<Id>, primary: string, now: Time)
      requires s in impacts && found == ImpactOn(impacts, impacts[s].incident, primary) && impacts[s].target != primary
      modifies this`impacts, this`evidence
      ensures State() == MergeOne(old(State()), s, primary, now)
      ensures |impacts| == |old(impacts)| - if found.Some? then 1 else 0
    {
      match found
      case None =>
        impacts := impacts[s := impacts[s].(target := primary)];
        assert impacts.Keys == old(impacts.Keys) && |impacts| == |impacts.Keys| && |old(impacts)| == |old(impacts.Keys)|;
        MoveEvidence(EvidenceOf(evidence, s), s, primary);
      case Some(d) =>
        MoveEvidence(EvidenceOf(evidence, s), d, primary);
        impacts := impacts - {s};
        RecomputeImpact(d, now);
        assert impacts.Keys == old(impacts.Keys) - {s} && |impacts| == |impacts.Keys| && |old(impacts)| == |old(impacts.Keys)|;
    }

    method MoveEvidence(es: set<Id>, d: Id, t: string)
      modifies this`evidence
      ensures evidence == Relocate(old(evidence), es, d, t)
    {
      evidence := map e | e in evidence :: if e in es then evidence[e].(impact := d, target := t) else evidence[e];
    }

    /** Pairs each impact of one target with the impact the other target has in the same incident. */
    method PairImpacts(primary: string, secondary: string) returns (pairs: map<Id, Option<Id>>)
      ensures Paired(impacts, ImpactsOn(impacts, secondary), pairs, primary)
    {
      var todo := ImpactsOn(impacts, secondary);
      pairs := map[];
      while todo != {}
        invariant todo <= ImpactsOn(impacts, secondary)
        invariant Paired(impacts, ImpactsOn(impacts, secondary) - todo, pairs, primary)
        decreases |todo|
      {
        var s :| s in todo;
        var d := FindImpactOn(impacts[s].incident, primary);
        pairs, todo := pairs[s := d], todo - {s};
      }
    }

    /** Merges the impacts of one target into another; tells how many were absorbed. */
    method MergeImpacts(primary: string, secondary: string, now: Time) returns (merged: nat, ghost order: seq<Id>)
      requires UniqueImpact(impacts) && primary != secondary
      modifies this`impacts, this`evidence
      ensures Lists(order, ImpactsOn(old(impacts), secondary))
      ensures State() == MergeAll(old(State()), order, primary, now)
      ensures merged == |old(impacts)| - |impacts|
    {
      hide MergeOne, Lists, Paired;
      var todo := ImpactsOn(impacts, secondary);
      var pairs := PairImpacts(primary, secondary);
      merged, order := 0, [];
      ListsNothing(todo);
      MergingStarts(impacts, todo, primary, secondary);
      while todo != {}
        invariant todo <= ImpactsOn(old(impacts), secondary) && Lists(order, ImpactsOn(old(impacts), secondary) - todo)
        invariant State() == MergeAll(old(State()), order, primary, now)
        invariant Paired(impacts, todo, pairs, primary) && Merging(impacts, todo, secondary)
        invariant merged == |old(impacts)| - |impacts|
        decreases |todo|
      {
        var s :| s in todo;
        PairedRow(impacts, todo, pairs, primary, secondary, s);
        MergingStep(State(), todo, pairs, s, primary, secondary, now);
        MergeAllSnoc(old(State()), order, s, primary, now);
        ListsSnoc(order, ImpactsOn(old(impacts), secondary), todo, s);
        MergeImpact(s, pairs[s], primary, now);
        if pairs[s].Some? {
          merged := merged + 1;
        }
        order, todo := order + [s], todo - {s};
      }
      assert ImpactsOn(old(impacts), secondary) - {} == ImpactsOn(old(impacts), secondary);
    }

    /** Two live targets become one. */
    method MergeIntoTarget(primary: string, secondary: string,
        now: Time) returns (r: Result<nat, Error>, ghost order: seq<Id>)
      requires Valid()
      modifies this
      ensures Valid() && Lists(order, ImpactsOn(old(impacts), secondary))
      ensures match MergeTargets(old(State()), primary, secondary, order, now)
        case Ok(db) => State() == db && r.Ok? && r.value == |old(impacts)| - |impacts|
        case Err(error) => State() == old(State()) && r == Err(error)
    {
      hide Partial, MergeAll, RecomputeIncidents;
      ListsExists(ImpactsOn(impacts, secondary));
      order :| Lists(order, ImpactsOn(impacts, secondary));
      if primary == secondary || primary !in targets || secondary !in targets {
        return Err(NotFound), order;
      }
      if targets[primary] != Live || targets[secondary] != Live {
        return Err(Conflict), order;
      }
      PartialPlaces(State());
      ghost var before := State();
      var ns := set p | p in impacts && impacts[p].target == secondary :: impacts[p].incident;
      assert ns == IncidentsOn(impacts, secondary);
      var merged: nat;
      merged, order := MergeImpacts(primary, secondary, now);
      MergeTargetsInv(before, primary, secondary, order, now);
      var _ := RecomputeIncidentSet(ns, now);
      targets := targets[secondary := Absorbed];
      PartialLinks(State(), {}, {});
      r := Ok(merged);
    }

    /** The impact split off for rows that leave the others behind. */
    method Split(es: set<Id>, i: Id, t: string, now: Time) returns (row: Impact)
      ensures row == SplitImpact(evidence, es, i, t, now)
    {
      var first := SelectFirst(Openings(evidence, es));
      var last := SelectFirst(Resolutions(evidence, es));
      var live := exists e :: e in es && e in evidence && evidence[e].active && evidence[e].invalidatedAt.None?;
      var openedAt := if first.Some? then evidence[first.value].openedAt else 0;
      var resolvedAt := if last.Some? then evidence[last.value].resolvedAt.value else now;
      row := Impact(i, t, if live then Active else Resolved, Top(Severities(evidence, es)),
                    openedAt, if live then None else Some(resolvedAt));
    }

    /** The chosen rows of impact `s` move to the impact of the destination target, which may have to be made. */
    method MoveChosen(s: Id, es: set<Id>, t: string, ghost source: string, ghost binding: string, now: Time)
      requires Shape(State()) && UniqueImpact(impacts) && s in impacts && Chosen(State(), s, es, t, source, binding)
      modifies this`impacts, this`evidence, this`next
      ensures State() == ReassignOne(old(State()), s, t, source, binding, now)
    {
      hide Shape, Chosen, RecomputeImpacts, SplitImpact, UniqueImpact, Selected, Relocate, EvidenceOf, ImpactOn;
      ChosenCase(State(), s, es, t, source, binding);
      var found := FindImpactOn(impacts[s].incident, t);
      var whole := EvidenceOf(evidence, s);
      SameSize(es, whole);
      if found.None? && |es| == |whole| {
        impacts := impacts[s := impacts[s].(target := t)];
        MoveEvidence(es, s, t);
        RecomputeImpact(s, now);
      } else if found.None? {
        var row := Split(es, impacts[s].incident, t, now);
        var d := next;
        FreshId(State(), s);
        impacts, next := impacts[d := row], next + 1;
        LeftBehind(evidence, es, s, d, t);
        MoveEvidence(es, d, t);
        FinishMove(s, d, now);
      } else if found == Some(s) {
        AlreadyThere(State(), s, es, t);
        MoveEvidence(es, s, t);
        RecomputeImpact(s, now);
      } else {
        LeftBehind(evidence, es, s, found.value, t);
        MoveEvidence(es, found.value, t);
        FinishMove(s, found.value, now);
      }
    }

    /** The impact left behind disappears with its last row. */
    method FinishMove(s: Id, d: Id, now: Time)
      requires s in impacts && d in impacts && s != d
      modifies this`impacts
      ensures EvidenceOf(evidence, s) == {} ==>
        State() == RecomputeImpacts(old(State()).(impacts := old(impacts) - {s}), {d}, now)
      ensures EvidenceOf(evidence, s) != {} ==> State() == RecomputeImpacts(old(State()), {s, d}, now)
    {
      if EvidenceOf(evidence, s) == {} {
        impacts := impacts - {s};
        RecomputeImpact(d, now);
      } else {
        RecomputeImpact(s, now);
        RecomputeImpact(d, now);
        RecomputeImpactsStep(old(State()), {s}, d, now);
        assert {s} + {d} == {s, d};
      }
    }

    /** Visits the impacts holding evidence of the source; the rows to move are chosen before the first move. */
    method MoveSource(t: string, source: string, binding: string, now: Time) returns (ghost order: seq<Id>)
      requires Valid() && IsLive(targets, t)
      modifies this`impacts, this`evidence, this`next
      ensures Lists(order, ImpactsFrom(old(evidence), source, binding))
      ensures State() == ReassignAll(old(State()), order, t, source, binding, now)
      ensures IncidentsFrom(old(evidence), source, binding) <= incidents.Keys
    {
      hide Partial, ReassignOne, Moving, Lists, Chosen, Shape;
      var todo := ImpactsFrom(evidence, source, binding);
      var chosen := map s | s in todo :: Selected(evidence, s, source, binding);
      ghost var ns := IncidentsFrom(evidence, source, binding);
      order := [];
      PartialShape(State(), {}, {});
      IncidentsFromPresent(State(), source, binding);
      PartialWider(State(), ns);
      ListsNothing(todo);
      MovingStarts(State(), chosen, t, source, binding);
      while todo != {}
        invariant todo <= ImpactsFrom(old(evidence), source, binding)
        invariant Lists(order, ImpactsFrom(old(evidence), source, binding) - todo)
        invariant State() == ReassignAll(old(State()), order, t, source, binding, now)
        invariant Partial(State(), {}, ns) && Moving(State(), todo, chosen, t, source, binding, ns)
        decreases |todo|
      {
        var s :| s in todo;
        MovingRow(State(), todo, chosen, s, t, source, binding, ns);
        PartialPlaced(State(), ns);
        MovingStep(State(), todo, chosen, s, t, source, binding, ns, now);
        ReassignAllSnoc(old(State()), order, s, t, source, binding, now);
        ListsSnoc(order, ImpactsFrom(old(evidence), source, binding), todo, s);
        ReassignOnePartial(State(), s, t, source, binding, ns, now);
        MoveChosen(s, chosen[s], t, source, binding, now);
        order, todo := order + [s], todo - {s};
      }
      assert ImpactsFrom(old(evidence), source, binding) - {} == ImpactsFrom(old(evidence), source, binding);
    }

    /** Moves the evidence of a source to another target, within the incidents it belongs to. */
    method ReassignToTarget(t: string, source: string, binding: string,
        now: Time) returns (r: Result<nat, Error>, ghost order: seq<Id>)
      requires Valid()
      modifies this
      ensures Valid() && Lists(order, ImpactsFrom(old(evidence), source, binding))
      ensures match ReassignSource(old(State()), t, source, binding, order, now)
        case Ok(db) => State() == db && r == Ok(|IncidentsFrom(old(evidence), source, binding)|)
        case Err(error) => State() == old(State()) && r == Err(error)
    {
      hide Partial, ReassignAll, ReassignOne, RecomputeIncidents, Moving, Lists;
      ListsExists(ImpactsFrom(evidence, source, binding));
      order :| Lists(order, ImpactsFrom(evidence, source, binding));
      if t !in targets {
        return Err(NotFound), order;
      }
      if targets[t] != Live {
        return Err(Conflict), order;
      }
      var ns := IncidentsFrom(evidence, source, binding);
      order := MoveSource(t, source, binding, now);
      ReassignSourceMeaning(old(State()), t, source, binding, order, now);
      var _ := RecomputeIncidentSet(ns, now);
      PartialLinks(State(), {}, {});
      r := Ok(|ns|);
    }
  }
}
