/** Every transaction of the cycle keeps the invariant of the incident tables. */
module IncidentTransactions {
  import opened Common
  import opened Trigger
  import opened IncidentModel
  import opened IncidentCycle
  import opened IncidentSnapshot
  import opened IncidentInvariants
  import opened IncidentAggregates
  import opened IncidentIdentities
  import opened IncidentAcknowledgement
  import opened IncidentPlacement

  /** What holds with the impacts `ps` and incidents `ns` still to be recomputed. */
  ghost predicate Partial(db: Db, ps: set<Id>, ns: set<Id>)
  {
    Steady(db, ps, ns) && Identities(db) && AckOk(db, ns) && Placement(db)
  }

  /** The invariant of committed states. */
  ghost predicate Inv(db: Db)
  {
    Partial(db, {}, {})
  }

  ghost predicate PassOk(pass: Pass)
  {
    Partial(pass.db, pass.impacts, pass.incidents)
  }

  lemma PartialLinks(db: Db, ps: set<Id>, ns: set<Id>)
    requires Partial(db, ps, ns)
    ensures Linked(db)
  {
    ShapeLinks(db);
  }

  // ----- Facts -----

  lemma ApplyOneOk(pass: Pass, f: Fact, now: Time)
    requires PassOk(pass) && Linked(pass.db)
    ensures ApplyOne(pass, f, now).Ok? ==> PassOk(ApplyOne(pass, f, now).value)
  {
    if f.identity !in pass.seen {
      ApplyFactSteady(pass.db, f, pass.impacts, pass.incidents, now);
      ApplyFactOutcome(pass.db, f, now);
      ApplyFactAck(pass.db, f, pass.incidents, now);
      ApplyFactPlacement(pass.db, f, now);
    }
  }

  lemma {:induction false} ApplyFactsOk(pass: Pass, facts: seq<Fact>, now: Time)
    requires PassOk(pass) && Linked(pass.db)
    ensures ApplyFacts(pass, facts, now).Ok? ==> PassOk(ApplyFacts(pass, facts, now).value)
    decreases |facts|
  {
    if facts != [] {
      ApplyOneOk(pass, facts[0], now);
      if ApplyOne(pass, facts[0], now).Ok? {
        ApplyFactsOk(ApplyOne(pass, facts[0], now).value, facts[1..], now);
      }
    }
  }

  // ----- Closing evidence -----

  lemma TouchingCovers(db: Db, es: set<Id>, ps: set<Id>, ns: set<Id>)
    requires Shape(db) && Clean(db, ps, ns)
    ensures forall p :: p in db.impacts && p in ps + ImpactsTouching(db, es) ==>
      db.impacts[p].incident in ns + IncidentsTouching(db, es)
    ensures forall e :: e in es && e in db.evidence ==>
      db.evidence[e].impact in ImpactsTouching(db, es) && db.evidence[e].incident in IncidentsTouching(db, es)
  {
    forall p | p in db.impacts && p in ImpactsTouching(db, es)
      ensures db.impacts[p].incident in IncidentsTouching(db, es)
    {
      var e :| e in es && e in db.evidence && db.evidence[e].impact == p;
      assert db.evidence[e].incident in IncidentsTouching(db, es);
    }
  }

  lemma ResolveRowsPartial(db: Db, es: set<Id>, ps: set<Id>, ns: set<Id>, now: Time)
    requires Partial(db, ps, ns)
    ensures Partial(ResolveRows(db, es, now), ps + ImpactsTouching(db, es), ns + IncidentsTouching(db, es))
  {
    var ps2, ns2 := ps + ImpactsTouching(db, es), ns + IncidentsTouching(db, es);
    TouchingCovers(db, es, ps, ns);
    ResolveRowsShape(db, es, now);
    ResolveRowsClean(db, es, ps, ns, ps2, ns2, now);
    ResolveRowsKeep(db, es, now);
    ResolveRowsAck(db, es, ns, ns2, now);
    SamePlacesKeep(db, ResolveRows(db, es, now));
  }

  lemma SettleInv(db: Db, ps: set<Id>, ns: set<Id>, now: Time)
    requires Partial(db, ps, ns)
    ensures Inv(Settle(db, ps, ns, now))
  {
    SettleShape(db, ps, ns, now);
    SettleClean(db, ps, ns, now);
    SettleAck(db, ps, ns, now);
    SettlePlaces(db, ps, ns, now);
    SamePlacesKeep(db, Settle(db, ps, ns, now));
  }

  lemma CloseInv(db: Db, es: set<Id>, now: Time)
    requires Inv(db)
    ensures Inv(Close(db, es, now))
  {
    ResolveRowsPartial(db, es, {}, {}, now);
    assert {} + ImpactsTouching(db, es) == ImpactsTouching(db, es);
    assert {} + IncidentsTouching(db, es) == IncidentsTouching(db, es);
    SettleInv(ResolveRows(db, es, now), ImpactsTouching(db, es), IncidentsTouching(db, es), now);
  }

  lemma AdvanceDueInv(db: Db, now: Time)
    requires Inv(db)
    ensures Inv(AdvanceDue(db, now))
  {
    RecomputeIncidentsShape(db, Due(db, now), now);
    AdvanceDueClean(db, now);
    RecomputeIncidentsAck(db, Due(db, now), {}, now);
    assert {} - Due(db, now) == {};
    assert SamePlaces(db, AdvanceDue(db, now));
    SamePlacesKeep(db, AdvanceDue(db, now));
  }

  // ----- Statements that change nothing an impact depends on -----

  /** Re-arming or disowning: rows keep their life and their acknowledgement; suppressions only shrink. */
  ghost predicate Relabelled(db: Db, db2: Db)
  {
    && db2 == db.(evidence := db2.evidence) && db2.evidence.Keys == db.evidence.Keys
    && forall e :: e in db.evidence ==> RelabelledRow(db.evidence[e], db2.evidence[e])
  }

  predicate RelabelledRow(row: Evidence, row2: Evidence)
  {
    && row2.incident == row.incident && row2.impact == row.impact && row2.target == row.target
    && row2.identity == row.identity && row2.active == row.active && row2.severity == row.severity
    && row2.resolvedAt == row.resolvedAt && row2.upstream == row.upstream && row2.ackSync == row.ackSync
    && row2.invalidatedAt == row.invalidatedAt
    && (row.rearmedAt.Some? ==> row2.rearmedAt == row.rearmedAt)
    && (row2.rearmedAt.Some? ==> row.rearmedAt.Some? || row.invalidatedAt.Some?)
  }

  lemma RelabelledPartial(db: Db, db2: Db, ps: set<Id>, ns: set<Id>)
    requires Partial(db, ps, ns) && Relabelled(db, db2)
    ensures Partial(db2, ps, ns)
  {
    RelabelledShape(db, db2);
    RelabelledIdentities(db, db2);
    RelabelledClean(db, db2, ps, ns);
    RelabelledAck(db, db2, ns);
    SamePlacesKeep(db, db2);
  }

  lemma RelabelledClean(db: Db, db2: Db, ps: set<Id>, ns: set<Id>)
    requires Clean(db, ps, ns) && Relabelled(db, db2)
    ensures Clean(db2, ps, ns)
  {
    forall e | e in db2.evidence
      ensures SameLife(db.evidence[e], db2.evidence[e])
    {
      assert RelabelledRow(db.evidence[e], db2.evidence[e]);
    }
    ConfinedClean(db, db2, ps, ns, ps, ns);
  }

  lemma RelabelledShape(db: Db, db2: Db)
    requires Shape(db) && Relabelled(db, db2)
    ensures Shape(db2)
  {
    hide IncidentRow, ImpactRow;
    forall e | e in db2.evidence
      ensures RelabelledRow(db.evidence[e], db2.evidence[e])
    {
    }
  }

  lemma RelabelledIdentities(db: Db, db2: Db)
    requires Identities(db) && Relabelled(db, db2)
    ensures Identities(db2)
  {
    forall e | e in db2.evidence
      ensures RelabelledRow(db.evidence[e], db2.evidence[e])
    {
    }
  }

  lemma RelabelledAck(db: Db, db2: Db, ns: set<Id>)
    requires AckOk(db, ns) && Relabelled(db, db2)
    ensures AckOk(db2, ns)
  {
    forall e | e in db2.evidence
      ensures RelabelledRow(db.evidence[e], db2.evidence[e])
      ensures RowAck(db2.evidence[e], Acknowledged(db2, db2.evidence[e].incident))
    {
      assert RelabelledRow(db.evidence[e], db2.evidence[e]);
      assert RowAck(db.evidence[e], Acknowledged(db, db.evidence[e].incident));
    }
    SyncAgreesFrame(db, db2, ns, ns);
  }

  lemma RearmRelabels(db: Db, s: Snapshot, seen: set<Identity>, now: Time)
    ensures Relabelled(db, Rearm(db, s, seen, now))
  {
  }

  lemma RearmIdentityRelabels(db: Db, id: Identity, now: Time)
    ensures Relabelled(db, RearmIdentity(db, id, now))
  {
  }

  lemma DisownRelabels(db: Db, owner: Owner)
    ensures Relabelled(db, Disown(db, owner))
  {
  }

  // ----- Transactions -----

  lemma FinishInv(pass: Pass, s: Snapshot)
    requires PassOk(pass)
    ensures Inv(Finish(pass, s))
  {
    var now := s.observedAt;
    var gone := Gone(pass.db, s, pass.seen);
    var ps, ns := pass.impacts + ImpactsTouching(pass.db, gone), pass.incidents + IncidentsTouching(pass.db, gone);
    var closed := ResolveRows(pass.db, gone, now);
    ResolveRowsPartial(pass.db, gone, pass.impacts, pass.incidents, now);
    RearmRelabels(closed, s, pass.seen, now);
    var rearmed := Rearm(closed, s, pass.seen, now);
    RelabelledPartial(closed, rearmed, ps, ns);
    SettleInv(rearmed, ps, ns, now);
    AdvanceDueInv(Settle(rearmed, ps, ns, now), now);
  }

  lemma SnapshotInv(db: Db, s: Snapshot)
    requires Inv(db) && Linked(db)
    ensures ApplySnapshot(db, s).Ok? ==> Inv(ApplySnapshot(db, s).value)
  {
    var pass := Pass(db, {}, {}, {});
    ApplyFactsOk(pass, Prepared(s), s.observedAt);
    if s.leaseValid && ApplyFacts(pass, Prepared(s), s.observedAt).Ok? {
      FinishInv(ApplyFacts(pass, Prepared(s), s.observedAt).value, s);
    }
  }

  lemma ResolveEvidenceInv(db: Db, id: Identity, now: Time)
    requires Inv(db)
    ensures Inv(ResolveEvidence(db, id, now))
  {
    match ActiveRow(db.evidence, id)
    case None =>
    case Some(e) => CloseInv(db, {e}, now);
  }

  /** Only tables outside the incident module differ. */
  ghost predicate Outside(db: Db, db2: Db)
  {
    && db2 == db.(targets := db2.targets, connectors := db2.connectors, sources := db2.sources)
    && db.targets.Keys <= db2.targets.Keys && OnLive(db2.targets, db2.evidence)
  }

  lemma OutsidePartial(db: Db, db2: Db, ps: set<Id>, ns: set<Id>)
    requires Partial(db, ps, ns) && Outside(db, db2)
    ensures Partial(db2, ps, ns)
  {
    OutsideShape(db, db2);
    OutsideClean(db, db2, ps, ns);
    OutsideAck(db, db2, ns);
    OutsidePlacement(db, db2);
  }

  lemma OutsideClean(db: Db, db2: Db, ps: set<Id>, ns: set<Id>)
    requires Clean(db, ps, ns) && Outside(db, db2)
    ensures Clean(db2, ps, ns)
  {
    ConfinedClean(db, db2, ps, ns, ps, ns);
  }

  lemma OutsidePlacement(db: Db, db2: Db)
    requires Placement(db) && Outside(db, db2)
    ensures Placement(db2)
  {
    SamePlacesKeep(db, db2);
  }

  lemma OutsideShape(db: Db, db2: Db)
    requires Shape(db) && Outside(db, db2)
    ensures Shape(db2)
  {
  }

  lemma OutsideAck(db: Db, db2: Db, ns: set<Id>)
    requires AckOk(db, ns) && Outside(db, db2)
    ensures AckOk(db2, ns)
  {
    assert forall i :: Acknowledged(db2, i) == Acknowledged(db, i);
    SyncAgreesFrame(db, db2, ns, ns);
  }

  lemma RecoverNativeInv(db: Db, source: string, now: Time)
    requires Inv(db)
    ensures Inv(RecoverNative(db, source, now))
  {
    match ActiveRow(db.evidence, NativeIdentity(source))
    case Some(e) => CloseInv(db, {e}, now);
    case None =>
      var db1 := RearmIdentity(db, NativeIdentity(source), now);
      RearmIdentityRelabels(db, NativeIdentity(source), now);
      RelabelledPartial(db, db1, {}, {});
      AdvanceDueInv(db1, now);
  }

  lemma TriggeredInv(db: Db, f: Fact, now: Time)
    requires Inv(db) && Linked(db)
    ensures match ApplyFact(db, f, now)
      case Touched(next, i, p) => Inv(Settle(next, {p}, {i}, now))
      case Ignored(next) => Inv(next)
      case _ => true
  {
    hide ApplyFact, Settle;
    ApplyFactSteady(db, f, {}, {}, now);
    ApplyFactOutcome(db, f, now);
    ApplyFactAck(db, f, {}, now);
    ApplyFactPlacement(db, f, now);
    match ApplyFact(db, f, now)
    case Touched(next, i, p) =>
      assert {} + {p} == {p} && {} + {i} == {i};
      SettleInv(next, {p}, {i}, now);
    case _ =>
  }

  lemma NativeEffectInv(db: Db, o: Observation, severity: Severity, decision: Decision)
    requires Inv(db) && Linked(db)
    ensures NativeEffect(db, o, severity, decision).Ok? ==> Inv(NativeEffect(db, o, severity, decision).value)
  {
    if decision.triggered {
      TriggeredInv(db, NativeFact(o, severity), o.observedAt);
    } else if decision.recovered {
      RecoverNativeInv(db, o.source, o.observedAt);
    } else {
      AdvanceDueInv(db, o.observedAt);
    }
  }

  lemma NativeInv(db: Db, o: Observation)
    requires Inv(db) && Linked(db)
    ensures ApplyNative(db, o).Ok? ==> Inv(ApplyNative(db, o).value)
  {
    if o.source in db.sources {
      var source := db.sources[o.source];
      var decision := Evaluate(source.policy, source.streaks, o.outcome);
      OutsidePartial(db, Counted(db, o.source, decision.streaks), {}, {});
      NativeEffectInv(Counted(db, o.source, decision.streaks), o, source.severity, decision);
    }
  }

  // ----- Invalidation -----

  lemma InvalidatedPartial(db: Db, e: Id, row: Evidence, now: Time)
    requires Inv(db) && e in db.evidence && db.evidence[e].active
    requires row == db.evidence[e].(active := false, resolvedAt := Some(now), invalidatedAt := Some(now))
    ensures Partial(db.(evidence := db.evidence[e := row]), {row.impact}, {row.incident})
  {
    InvalidatedShape(db, e, row, now);
    InvalidatedClean(db, e, row);
    InvalidatedIdentities(db, e, row);
    InvalidatedAck(db, e, row);
    SamePlacesKeep(db, db.(evidence := db.evidence[e := row]));
  }

  lemma InvalidatedShape(db: Db, e: Id, row: Evidence, now: Time)
    requires Shape(db) && e in db.evidence
    requires row == db.evidence[e].(active := false, resolvedAt := Some(now), invalidatedAt := Some(now))
    ensures Shape(db.(evidence := db.evidence[e := row]))
  {
  }

  lemma InvalidatedClean(db: Db, e: Id, row: Evidence)
    requires Shape(db) && Clean(db, {}, {}) && e in db.evidence
    requires row.impact == db.evidence[e].impact && row.incident == db.evidence[e].incident
    ensures Clean(db.(evidence := db.evidence[e := row]), {row.impact}, {row.incident})
  {
    InvalidatedConfined(db, e, row);
    ConfinedClean(db, db.(evidence := db.evidence[e := row]), {}, {}, {row.impact}, {row.incident});
  }

  lemma InvalidatedConfined(db: Db, e: Id, row: Evidence)
    requires Shape(db) && e in db.evidence
    requires row.impact == db.evidence[e].impact && row.incident == db.evidence[e].incident
    ensures Confined(db, db.(evidence := db.evidence[e := row]), {row.impact}, {row.incident})
  {
    assert SameEvidence(db.evidence, db.evidence[e := row], {row.impact});
  }

  lemma InvalidatedIdentities(db: Db, e: Id, row: Evidence)
    requires Identities(db) && e in db.evidence && db.evidence[e].active
    requires !row.active && row.identity == db.evidence[e].identity
    ensures Identities(db.(evidence := db.evidence[e := row]))
  {
  }

  lemma InvalidatedAck(db: Db, e: Id, row: Evidence)
    requires AckOk(db, {}) && e in db.evidence && db.evidence[e].active
    requires !row.active && row.incident == db.evidence[e].incident
    ensures AckOk(db.(evidence := db.evidence[e := row]), {row.incident})
  {
    var db2 := db.(evidence := db.evidence[e := row]);
    forall x | x in db2.evidence
      ensures RowAck(db2.evidence[x], Acknowledged(db2, db2.evidence[x].incident))
    {
      assert RowAck(db.evidence[x], Acknowledged(db, db.evidence[x].incident));
    }
    SyncAgreesFrame(db, db2, {}, {row.incident});
  }

  lemma InvalidateInv(db: Db, i: Id, e: Id, now: Time)
    requires Inv(db)
    ensures Invalidate(db, i, e, now).Ok? ==> Inv(Invalidate(db, i, e, now).value)
  {
    if Invalidate(db, i, e, now).Ok? {
      var row := db.evidence[e].(active := false, resolvedAt := Some(now), invalidatedAt := Some(now));
      InvalidatedPartial(db, e, row, now);
      SettleInv(db.(evidence := db.evidence[e := row]), {row.impact}, {i}, now);
    }
  }

  // ----- Acknowledgement -----

  lemma AckOnlyInv(db: Db, db2: Db)
    requires Inv(db) && AckOnly(db, db2) && AckOk(db2, {})
    ensures Inv(db2)
  {
    AckOnlyShape(db, db2);
    AckOnlyClean(db, db2, {}, {});
    AckOnlyStandings(db, db2);
    SameStandingsKeep(db.targets, db.evidence, db2.evidence);
    AckOnlyPlaces(db, db2);
    SamePlacesKeep(db, db2);
  }

  lemma AckLocalSync(db: Db, i: Id, row: Incident)
    requires AckOk(db, {}) && i in db.incidents && !Acknowledged(db, i) && row.acknowledgedAt.Some?
    requires row.ackSync == if exists e :: e in db.evidence && Remote(db.evidence[e], i) then Pending else NotApplicable
    ensures AckOk(QueueEvidence(db.(incidents := db.incidents[i := row]), i), {})
  {
    var db2 := QueueEvidence(db.(incidents := db.incidents[i := row]), i);
    MarkedRowsAck(db, i, row);
    QueuedSync(db, i, row, {i});
    QueuedStatus(db, i, row);
  }

  /** Evidence of an incident nobody has acknowledged, not even upstream, waits for the acknowledgement. */
  lemma QueuedStatus(db: Db, i: Id, row: Incident)
    requires UpstreamAck(db, None) && i in db.incidents && !Acknowledged(db, i)
    requires row.ackSync == if exists e :: e in db.evidence && Remote(db.evidence[e], i) then Pending else NotApplicable
    ensures row.ackSync == DerivedSync(QueueEvidence(db.(incidents := db.incidents[i := row]), i).evidence, i)
  {
    var db2 := QueueEvidence(db.(incidents := db.incidents[i := row]), i);
    forall e | e in db.evidence && Remote(db.evidence[e], i)
      ensures e in db2.evidence && Remote(db2.evidence[e], i) && db2.evidence[e].ackSync == Pending
    {
      assert !db.evidence[e].upstream;
    }
    assert forall e :: e in db2.evidence && Remote(db2.evidence[e], i) ==> Remote(db.evidence[e], i);
  }

  lemma MarkedOnly(db: Db, i: Id, row: Incident)
    requires i in db.incidents && SameButAck(db.incidents[i], row)
    ensures AckOnly(db, QueueEvidence(db.(incidents := db.incidents[i := row]), i))
  {
    var marked := db.(incidents := db.incidents[i := row]);
    assert AckOnly(db, marked);
    QueueEvidenceOnly(marked, i);
    AckOnlyTransitive(db, marked, QueueEvidence(marked, i));
  }

  lemma AckLocalOnly(db: Db, i: Id, now: Time)
    requires AckOk(db, {}) && AckLocal(db, i, now).Ok?
    ensures AckOnly(db, AckLocal(db, i, now).value) && AckOk(AckLocal(db, i, now).value, {})
  {
    if !Acknowledged(db, i) {
      var external := exists e :: e in db.evidence && Remote(db.evidence[e], i);
      var row := db.incidents[i].(acknowledgedAt := Some(now), ackSync := if external then Pending else NotApplicable);
      MarkedOnly(db, i, row);
      AckLocalSync(db, i, row);
    }
  }

  lemma AckLocalInv(db: Db, i: Id, now: Time)
    requires Inv(db)
    ensures AckLocal(db, i, now).Ok? ==> Inv(AckLocal(db, i, now).value)
  {
    if AckLocal(db, i, now).Ok? {
      AckLocalOnly(db, i, now);
      AckOnlyInv(db, AckLocal(db, i, now).value);
    }
  }

  /** Answers change the acknowledgement columns of remote evidence only. */
  ghost predicate Answered(db: Db, db2: Db, i: Id)
  {
    && db2 == db.(evidence := db2.evidence) && db2.evidence.Keys == db.evidence.Keys
    && forall e :: e in db.evidence ==> AnsweredRow(db.evidence[e], db2.evidence[e], i)
  }

  predicate AnsweredRow(row: Evidence, row2: Evidence, i: Id)
  {
    row2 == row ||
    (&& Remote(row, i) && row2 == row.(ackSync := row2.ackSync, upstream := row2.upstream)
     && (row2.ackSync == SyncFailed || (row2.ackSync == Synchronized && row2.upstream)))
  }

  lemma {:induction false} RecordResultsAnswered(db: Db, i: Id, results: seq<AckResult>)
    ensures Answered(db, RecordResults(db, i, results), i)
  {
    if results != [] {
      var init := results[..|results| - 1];
      RecordResultsAnswered(db, i, init);
      var db1, r := RecordResults(db, i, init), results[|results| - 1];
      var db2 := RecordResult(db1, i, r);
      forall e | e in db.evidence
        ensures AnsweredRow(db.evidence[e], db2.evidence[e], i)
      {
        assert AnsweredRow(db.evidence[e], db1.evidence[e], i);
      }
    }
  }

  lemma AnsweredAck(db: Db, db2: Db, i: Id)
    requires AckOk(db, {}) && Answered(db, db2, i) && Acknowledged(db, i)
    ensures AckOk(db2, {i})
  {
    forall e | e in db2.evidence
      ensures RowAck(db2.evidence[e], Acknowledged(db2, db2.evidence[e].incident))
      ensures db2.evidence[e].incident == db.evidence[e].incident
      ensures db2.evidence[e].incident != i ==> db2.evidence[e] == db.evidence[e]
    {
      assert AnsweredRow(db.evidence[e], db2.evidence[e], i);
      assert RowAck(db.evidence[e], Acknowledged(db, db.evidence[e].incident));
    }
    SyncAgreesFrame(db, db2, {}, {i});
  }

  lemma AnsweredShape(db: Db, db2: Db, i: Id)
    requires Shape(db) && Answered(db, db2, i)
    ensures Shape(db2)
  {
    forall e | e in db2.evidence
      ensures EvidenceRow(db2.evidence[e]) && db2.evidence[e].incident == db.evidence[e].incident
      ensures db2.evidence[e].impact == db.evidence[e].impact && db2.evidence[e].target == db.evidence[e].target
    {
      assert AnsweredRow(db.evidence[e], db2.evidence[e], i);
      assert EvidenceRow(db.evidence[e]);
    }
  }

  lemma AnsweredClean(db: Db, db2: Db, i: Id)
    requires Clean(db, {}, {}) && Answered(db, db2, i)
    ensures Clean(db2, {}, {})
  {
    forall e | e in db2.evidence
      ensures SameLife(db.evidence[e], db2.evidence[e])
    {
      assert AnsweredRow(db.evidence[e], db2.evidence[e], i);
    }
    ConfinedClean(db, db2, {}, {}, {}, {});
  }

  lemma AnsweredStandings(db: Db, db2: Db, i: Id)
    requires Answered(db, db2, i)
    ensures SameStandings(db.evidence, db2.evidence)
  {
    forall e | e in db2.evidence
      ensures SameStanding(db.evidence[e], db2.evidence[e])
    {
      assert AnsweredRow(db.evidence[e], db2.evidence[e], i);
    }
  }

  lemma RecomputedAck(db: Db, i: Id)
    requires AckOk(db, {i}) && i in db.incidents
    ensures AckOk(RecomputeAck(db, i), {})
  {
    var db2 := RecomputeAck(db, i);
    assert forall j :: Acknowledged(db2, j) == Acknowledged(db, j);
    SyncAgreesFrame(db, db2, {i}, {i});
  }

  lemma CompleteAckInv(db: Db, i: Id, results: seq<AckResult>)
    requires Inv(db) && Acknowledged(db, i)
    ensures Inv(CompleteAck(db, i, results))
  {
    var db1 := RecordResults(db, i, results);
    RecordResultsAnswered(db, i, results);
    AnsweredInv(db, db1, i);
    assert CompleteAck(db, i, results) == RecomputeAck(db1, i);
  }

  lemma AnsweredInv(db: Db, db1: Db, i: Id)
    requires Inv(db) && Acknowledged(db, i) && Answered(db, db1, i)
    ensures Inv(RecomputeAck(db1, i))
  {
    AnsweredAck(db, db1, i);
    AnsweredShape(db, db1, i);
    AnsweredClean(db, db1, i);
    AnsweredStandings(db, db1, i);
    SameStandingsKeep(db.targets, db.evidence, db1.evidence);
    SamePlacesKeep(db, db1);
    RecomputedAck(db1, i);
    RecomputeAckOnly(db1, i);
    AckOnlyGroups(db1, RecomputeAck(db1, i));
  }

  lemma AckOnlyGroups(db: Db, db2: Db)
    requires Shape(db) && Clean(db, {}, {}) && Identities(db) && Placement(db) && AckOnly(db, db2)
    ensures Shape(db2) && Clean(db2, {}, {}) && Identities(db2) && Placement(db2)
  {
    AckOnlyShape(db, db2);
    AckOnlyClean(db, db2, {}, {});
    AckOnlyStandings(db, db2);
    SameStandingsKeep(db.targets, db.evidence, db2.evidence);
    AckOnlyPlaces(db, db2);
    SamePlacesKeep(db, db2);
  }

  // ----- Targets and owners -----

  /** Closing the evidence of a target, then archiving it, commutes up to the count of live targets. */
  lemma ArchiveInv(db: Db, target: string, now: Time)
    requires Inv(db)
    ensures Archive(db, target, now).Ok? ==> Inv(Archive(db, target, now).value)
  {
    if Archive(db, target, now).Ok? {
      var es := ActiveOn(db.evidence, target);
      var targets := db.targets[target := Archived];
      var closed := ResolveRows(db, es, now);
      ResolveRowsPartial(db, es, {}, {}, now);
      assert {} + ImpactsTouching(db, es) == ImpactsTouching(db, es);
      assert {} + IncidentsTouching(db, es) == IncidentsTouching(db, es);
      assert Outside(closed, closed.(targets := targets)) by { ArchivedOutside(db, target, now); }
      OutsidePartial(closed, closed.(targets := targets), ImpactsTouching(db, es), IncidentsTouching(db, es));
      SettleInv(closed.(targets := targets), ImpactsTouching(db, es), IncidentsTouching(db, es), now);
      assert ResolveRows(db.(targets := targets), es, now) == closed.(targets := targets);
    }
  }

  lemma ArchivedOutside(db: Db, target: string, now: Time)
    requires OnLive(db.targets, db.evidence) && target in db.targets
    ensures var closed := ResolveRows(db, ActiveOn(db.evidence, target), now);
      Outside(closed, closed.(targets := db.targets[target := Archived]))
  {
  }

  lemma RestoreInv(db: Db, target: string)
    requires Inv(db)
    ensures Restore(db, target).Ok? ==> Inv(Restore(db, target).value)
  {
    if Restore(db, target).Ok? {
      OutsidePartial(db, db.(targets := db.targets[target := Live]), {}, {});
    }
  }

  lemma RemoveOwnerInv(db: Db, owner: Owner, now: Time)
    requires Inv(db)
    ensures Inv(RemoveOwner(db, owner, now))
  {
    var es := ActiveOwned(db.evidence, owner);
    CloseInv(db, es, now);
    DisownRelabels(Close(db, es, now), owner);
    RelabelledPartial(Close(db, es, now), RemoveOwner(db, owner, now), {}, {});
  }
}
