/** Signal sources and the targets they watch: moving one away, and archiving the target it leaves. */
module IncidentMoves {
  import opened Common
  import opened Trigger
  import opened IncidentModel
  import opened IncidentCycle
  import opened IncidentSnapshot
  import opened IncidentStructure
  import opened IncidentInvariants
  import opened IncidentAggregates
  import opened IncidentIdentities
  import opened IncidentAcknowledgement
  import opened IncidentTransactions
  import opened IncidentStructureProofs
  import opened IncidentRuns
  import opened IncidentHistory
  import opened IncidentStoreSteps

  /** The target a source watches, and its binding if a connector keeps it. */
  datatype Seat = Seat(target: string, binding: string)

  datatype Site = Site(db: Db, seats: map<string, Seat>)

  function SeatedOn(seats: map<string, Seat>, t: string): set<string>
  {
    set s | s in seats && seats[s].target == t
  }

  function BindingOf(seats: map<string, Seat>, source: string): string
  {
    if source in seats then seats[source].binding else ""
  }

  /** One transaction: the source moves, then the target it leaves is archived, if asked and if no source is left there. */
  ghost function MoveSource(site: Site, source: string, origin: string, t: string, archive: bool, order: seq<Id>,
      now: Time): Result<Site, Error>
    requires Lists(order, ImpactsFrom(site.db.evidence, source, BindingOf(site.seats, source)))
  {
    var db, seats := site.db, site.seats;
    if origin == t || origin !in db.targets || t !in db.targets then Err(NotFound)
    else if db.targets[origin] != Live || db.targets[t] != Live then Err(Conflict)
    else if source !in seats || seats[source].target != origin then Err(Conflict)
    else
      match ReassignSource(db, t, source, seats[source].binding, order, now)
      case Err(error) => Err(error)
      case Ok(moved) =>
        var seats2 := seats[source := seats[source].(target := t)];
        if !archive then Ok(Site(moved, seats2))
        else if SeatedOn(seats2, origin) != {} then Err(Conflict)
        else Ok(Site(moved.(targets := moved.targets[origin := Archived]), seats2))
  }

  /** When a move is accepted, and which source it leaves where. */
  lemma AcceptedMove(site: Site, source: string, origin: string, t: string, archive: bool, order: seq<Id>, now: Time)
    requires Inv(site.db) && Lists(order, ImpactsFrom(site.db.evidence, source, BindingOf(site.seats, source)))
    ensures var r := MoveSource(site, source, origin, t, archive, order, now);
      && (r.Ok? <==>
            && origin != t && IsLive(site.db.targets, origin) && IsLive(site.db.targets, t)
            && source in site.seats && site.seats[source].target == origin
            && (archive ==> forall s :: s in site.seats && s != source ==> site.seats[s].target != origin))
      && (r.Ok? ==>
            && r.value.seats == site.seats[source := Seat(t, site.seats[source].binding)]
            && r.value.db.targets == if archive then site.db.targets[origin := Archived] else site.db.targets)
  {
    hide ReassignAll, Partial;
    if source in site.seats && ReassignSource(site.db, t, source, site.seats[source].binding, order, now).Ok? {
      ReassignTargets(site.db, t, source, site.seats[source].binding, order, now);
      var seats2 := site.seats[source := site.seats[source].(target := t)];
      if s :| s in site.seats && s != source && site.seats[s].target == origin {
        assert s in SeatedOn(seats2, origin);
      }
    }
  }

  // ----- When the archived target keeps nothing active -----

  /** All active evidence of the target comes from the source. */
  ghost predicate AllFrom(db: Db, origin: string, source: string, binding: string)
  {
    forall e :: e in db.evidence && db.evidence[e].active && db.evidence[e].target == origin ==>
      FromSource(db.evidence[e], source, binding)
  }

  lemma ArchivingNothing(db: Db, t: string, now: Time)
    requires t in db.targets && db.targets[t] == Live && ActiveOn(db.evidence, t) == {}
    ensures Archive(db, t, now) == Ok(db.(targets := db.targets[t := Archived]))
  {
    var archived := db.(targets := db.targets[t := Archived]);
    assert ImpactsTouching(archived, {}) == {} && IncidentsTouching(archived, {}) == {};
    NothingRecomputed(archived, now);
  }

  lemma ReassignTargets(db: Db, t: string, source: string, binding: string, order: seq<Id>, now: Time)
    requires Inv(db) && Lists(order, ImpactsFrom(db.evidence, source, binding))
    requires ReassignSource(db, t, source, binding, order, now).Ok?
    ensures ReassignSource(db, t, source, binding, order, now).value.targets == db.targets
  {
    hide ReassignAll;
    ReassignStart(db, t, source, binding, order);
    PartialWider(db, IncidentsFrom(db.evidence, source, binding));
    ReassignAllOk(db, order, t, source, binding, IncidentsFrom(db.evidence, source, binding), now);
  }

  /** What stays active on the target is what does not come from the source. */
  lemma LeftOnOrigin(db: Db, moved: Db, t: string, origin: string, source: string, binding: string)
    requires origin != t && Moved(db.evidence, moved.evidence, t, source, binding)
    ensures ActiveOn(moved.evidence, origin) == {} <==> AllFrom(db, origin, source, binding)
  {
    if ActiveOn(moved.evidence, origin) == {} {
      forall e | e in db.evidence && db.evidence[e].active && db.evidence[e].target == origin
        ensures FromSource(db.evidence[e], source, binding)
      {
        assert e !in ActiveOn(moved.evidence, origin);
      }
    }
  }

  /**
   * Archiving the target a source leaves closes nothing there: the invariant survives, and the result is that of moving
   * the source and then archiving the target, exactly if all active evidence of the target comes from the source.
   */
  lemma MoveAndArchiveExactly(site: Site, source: string, origin: string, t: string, order: seq<Id>, now: Time)
    requires Inv(site.db) && Lists(order, ImpactsFrom(site.db.evidence, source, BindingOf(site.seats, source)))
    requires MoveSource(site, source, origin, t, true, order, now).Ok?
    ensures var binding, db2 := BindingOf(site.seats, source), MoveSource(site, source, origin, t, true, order, now).value.db;
      var moved := ReassignSource(site.db, t, source, binding, order, now).value;
      && (Inv(db2) <==> AllFrom(site.db, origin, source, binding))
      && (Inv(db2) ==> Archive(moved, origin, now) == Ok(db2))
  {
    hide Shape, Clean, AckOk, ReassignAll, AllFrom, FromSource;
    var db, binding, db2 := site.db, BindingOf(site.seats, source), MoveSource(site, source, origin, t, true, order, now).value.db;
    var moved := ReassignSource(db, t, source, binding, order, now).value;
    ReassignSourceMeaning(db, t, source, binding, order, now);
    ReassignTargets(db, t, source, binding, order, now);
    LeftOnOrigin(db, moved, t, origin, source, binding);
    if ActiveOn(moved.evidence, origin) == {} {
      ArchivingNothing(moved, origin, now);
      ArchiveInv(moved, origin, now);
    } else {
      var e :| e in ActiveOn(moved.evidence, origin);
      assert !IsLive(db2.targets, db2.evidence[e].target);
    }
  }

  // ----- Evidence where its source is -----

  /** Source `s` watches the target of the row, which comes from it. */
  predicate Watches(seats: map<string, Seat>, s: string, row: Evidence)
  {
    s in seats && seats[s].target == row.target && FromSource(row, s, seats[s].binding)
  }

  /** Every active row comes from a source that watches its target. */
  ghost predicate Seated(site: Site)
  {
    forall e :: e in site.db.evidence && site.db.evidence[e].active ==> exists s :: Watches(site.seats, s, site.db.evidence[e])
  }

  /** Then moving a source keeps the invariant, whether its former target is archived or not, and keeps rows with their sources. */
  lemma SeatedMovesAreSafe(site: Site, source: string, origin: string, t: string, archive: bool, order: seq<Id>, now: Time)
    requires Inv(site.db) && Seated(site) && Lists(order, ImpactsFrom(site.db.evidence, source, BindingOf(site.seats, source)))
    requires MoveSource(site, source, origin, t, archive, order, now).Ok?
    ensures var site2 := MoveSource(site, source, origin, t, archive, order, now).value; Inv(site2.db) && Seated(site2)
  {
    hide Inv, ReassignSource, FromSource;
    var binding, site2 := BindingOf(site.seats, source), MoveSource(site, source, origin, t, archive, order, now).value;
    ReassignSourceMeaning(site.db, t, source, binding, order, now);
    SeatsMoveAlong(site, site2, source, t);
    if archive {
      OnlySourceLeft(site, site2.seats, source, origin, t);
      MoveAndArchiveExactly(site, source, origin, t, order, now);
    }
  }

  lemma OnlySourceLeft(site: Site, seats2: map<string, Seat>, source: string, origin: string, t: string)
    requires Seated(site) && source in site.seats && seats2 == site.seats[source := site.seats[source].(target := t)]
    requires SeatedOn(seats2, origin) == {}
    ensures AllFrom(site.db, origin, source, site.seats[source].binding)
  {
    hide FromSource;
    forall e | e in site.db.evidence && site.db.evidence[e].active && site.db.evidence[e].target == origin
      ensures FromSource(site.db.evidence[e], source, site.seats[source].binding)
    {
      var s :| Watches(site.seats, s, site.db.evidence[e]);
      assert s !in SeatedOn(seats2, origin);
    }
  }

  lemma SeatsMoveAlong(site: Site, site2: Site, source: string, t: string)
    requires Seated(site) && source in site.seats && site2.seats == site.seats[source := site.seats[source].(target := t)]
    requires Moved(site.db.evidence, site2.db.evidence, t, source, site.seats[source].binding)
    ensures Seated(site2)
  {
    forall e | e in site2.db.evidence && site2.db.evidence[e].active
      ensures exists s :: Watches(site2.seats, s, site2.db.evidence[e])
    {
      var row, row2 := site.db.evidence[e], site2.db.evidence[e];
      assert row2 == row.(impact := row2.impact, target := row2.target);
      var s :| Watches(site.seats, s, row);
      if FromSource(row, source, site.seats[source].binding) {
        assert Watches(site2.seats, source, row2);
      } else {
        assert Watches(site2.seats, s, row2);
      }
    }
  }

  // ----- Runs -----

  /** A step that leaves the sources alone, a source put in place, or a source moved. */
  datatype Deed =
    | Do(step: Step)
    | Install(source: string, seat: Seat)
    | Move(source: string, origin: string, target: string, archive: bool, order: seq<Id>, now: Time)

  ghost predicate Allowed(site: Site, deed: Deed)
  {
    match deed
    case Do(step) => Linked(site.db) && Enabled(site.db, step) && !step.Merge? && !step.Reassign? && !step.Remove?
    case Install(source, _) => source !in site.seats
    case Move(source, _, _, _, order, _) => Lists(order, ImpactsFrom(site.db.evidence, source, BindingOf(site.seats, source)))
  }

  ghost function Done(site: Site, deed: Deed): Site
    requires Allowed(site, deed)
  {
    match deed
    case Do(step) => site.(db := Next(site.db, step))
    case Install(source, seat) => site.(seats := site.seats[source := seat])
    case Move(source, origin, t, archive, order, now) =>
      match MoveSource(site, source, origin, t, archive, order, now)
      case Ok(site2) => site2
      case Err(_) => site
  }

  ghost predicate Leads(site: Site, deeds: seq<Deed>, site2: Site)
    decreases |deeds|
  {
    if deeds == [] then site == site2
    else Allowed(site, deeds[0]) && Leads(Done(site, deeds[0]), deeds[1..], site2)
  }

  // ----- Runs whose reports arrive in time -----

  /** The row still says what it is evidence of, and was active before if it is now. */
  predicate SameOrigin(row: Evidence, row2: Evidence)
  {
    row2.target == row.target && row2.source == row.source && row2.binding == row.binding && (row2.active ==> row.active)
  }

  predicate Carries(row: Evidence, f: Fact)
  {
    row.target == f.target && row.source == f.source && row.binding == f.binding
  }

  /** Active rows were active before, or carry one of the facts. */
  ghost predicate Stems(evidence: map<Id, Evidence>, evidence2: map<Id, Evidence>, facts: set<Fact>)
  {
    forall e :: e in evidence2 && evidence2[e].active ==>
      (e in evidence && SameOrigin(evidence[e], evidence2[e])) || (exists f :: f in facts && Carries(evidence2[e], f))
  }

  lemma StemsTrans(a: map<Id, Evidence>, b: map<Id, Evidence>, c: map<Id, Evidence>, facts: set<Fact>, more: set<Fact>)
    requires Stems(a, b, facts) && Stems(b, c, more)
    ensures Stems(a, c, facts + more)
  {
    forall e | e in c && c[e].active
      ensures (e in a && SameOrigin(a[e], c[e])) || (exists f :: f in facts + more && Carries(c[e], f))
    {
      if f :| f in more && Carries(c[e], f) {
        assert f in facts + more;
      } else if e in a && SameOrigin(a[e], b[e]) {
        assert SameOrigin(a[e], c[e]);
      } else {
        var f :| f in facts && Carries(b[e], f);
        assert f in facts + more && Carries(c[e], f);
      }
    }
  }

  lemma AckOnlyStems(db: Db, db2: Db)
    requires AckOnly(db, db2)
    ensures Stems(db.evidence, db2.evidence, {})
  {
    forall e | e in db2.evidence
      ensures SameOrigin(db.evidence[e], db2.evidence[e])
    {
      assert SameButSync(db.evidence[e], db2.evidence[e]);
    }
  }

  lemma AddEvidenceStems(db: Db, f: Fact, i: Id, p: Id, now: Time)
    requires Linked(db) && ValidSeverity(f.severity) && i in db.incidents
    ensures Stems(db.evidence, AddEvidence(db, f, i, p, now).evidence, {f})
  {
    hide AckFromEvidence;
    var added := InsertEvidence(db, f, i, p);
    assert Stems(db.evidence, added.evidence, {f});
    if f.upstream {
      AckFromEvidenceOnly(added, i, now);
      AckOnlyStems(added, AddEvidence(db, f, i, p, now));
      StemsTrans(db.evidence, added.evidence, AddEvidence(db, f, i, p, now).evidence, {f}, {});
      assert {f} + {} == {f};
    }
  }

  lemma OpenFactStems(db: Db, f: Fact, now: Time)
    requires Shape(db) && Linked(db) && ValidSeverity(f.severity)
    ensures var r := OpenFact(db, f, now); !r.Failed? ==> Stems(db.evidence, r.db.evidence, {f})
  {
    hide OpenImpact, AddEvidence, Shape;
    if OpenFact(db, f, now).Touched? {
      var o := OpenImpact(db, f, now);
      OpenImpactShape(db, f, now);
      AddEvidenceStems(o.db, f, o.incident, o.impact, now);
    }
  }

  lemma RefreshStems(db: Db, e: Id, f: Fact, now: Time)
    requires Linked(db) && ValidSeverity(f.severity) && e in db.evidence
    ensures Stems(db.evidence, Refresh(db, e, f, now).evidence, {})
  {
    hide AckFromEvidence;
    var refreshed := RefreshRow(db, e, f);
    assert Stems(db.evidence, refreshed.evidence, {});
    if f.upstream {
      AckFromEvidenceOnly(refreshed, db.evidence[e].incident, now);
      AckOnlyStems(refreshed, Refresh(db, e, f, now));
      StemsTrans(db.evidence, refreshed.evidence, Refresh(db, e, f, now).evidence, {}, {});
    }
  }

  lemma StemsWider(a: map<Id, Evidence>, b: map<Id, Evidence>, facts: set<Fact>, more: set<Fact>)
    requires Stems(a, b, facts) && facts <= more
    ensures Stems(a, b, more)
  {
  }

  lemma RetireStems(db: Db, e: Id, now: Time)
    requires e in db.evidence
    ensures Stems(db.evidence, Retire(db, e, now).evidence, {})
  {
    assert Retire(db, e, now).evidence == ResolveRows(db, {e}, now).evidence;
  }

  lemma ApplyFactStems(db: Db, f: Fact, now: Time)
    requires Shape(db) && Linked(db)
    ensures var r := ApplyFact(db, f, now); !r.Failed? ==> Stems(db.evidence, r.db.evidence, {f})
  {
    hide OpenFact, Refresh, Retire, Stems;
    if Complete(f) {
      match ActiveRow(db.evidence, f.identity)
      case None => OpenFactStems(db, f, now);
      case Some(e) =>
        assert EvidenceRow(db.evidence[e]);
        if db.evidence[e].target == f.target && db.incidents[db.evidence[e].incident].nature.key == f.nature.key {
          RefreshStems(db, e, f, now);
          StemsWider(db.evidence, Refresh(db, e, f, now).evidence, {}, {f});
        } else {
          var db1 := Retire(db, e, now);
          RetireShape(db, e, now);
          RetireStems(db, e, now);
          OpenFactStems(db1, f, now);
          if !OpenFact(db1, f, now).Failed? {
            StemsTrans(db.evidence, db1.evidence, OpenFact(db1, f, now).db.evidence, {}, {f});
            assert {} + {f} == {f};
          }
        }
    }
  }

  function FactSet(facts: seq<Fact>): set<Fact> { set f | f in facts }

  lemma StemsSelf(evidence: map<Id, Evidence>, facts: set<Fact>)
    ensures Stems(evidence, evidence, facts)
  {
  }

  lemma ApplyOneStems(pass: Pass, f: Fact, now: Time)
    requires PassOk(pass) && Linked(pass.db) && ApplyOne(pass, f, now).Ok?
    ensures Stems(pass.db.evidence, ApplyOne(pass, f, now).value.db.evidence, {f})
  {
    hide ApplyFact, Stems, Shape;
    StemsSelf(pass.db.evidence, {f});
    ApplyFactStems(pass.db, f, now);
  }

  lemma {:induction false} ApplyFactsStem(pass: Pass, facts: seq<Fact>, now: Time)
    requires PassOk(pass) && Linked(pass.db) && ApplyFacts(pass, facts, now).Ok?
    ensures Stems(pass.db.evidence, ApplyFacts(pass, facts, now).value.db.evidence, FactSet(facts))
    decreases |facts|
  {
    hide ApplyOne, Stems, PassOk;
    StemsSelf(pass.db.evidence, FactSet(facts));
    if facts != [] {
      var f, mid := facts[0], ApplyOne(pass, facts[0], now).value;
      ApplyOneOk(pass, f, now);
      ApplyOneStems(pass, f, now);
      ApplyFactsStem(mid, facts[1..], now);
      StemsTrans(pass.db.evidence, mid.db.evidence, ApplyFacts(mid, facts[1..], now).value.db.evidence, {f}, FactSet(facts[1..]));
      assert {f} + FactSet(facts[1..]) == FactSet(facts);
    }
  }

  lemma FinishStems(pass: Pass, s: Snapshot)
    ensures Stems(pass.db.evidence, Finish(pass, s).evidence, {})
  {
    var gone := Gone(pass.db, s, pass.seen);
    assert Finish(pass, s).evidence == Rearm(ResolveRows(pass.db, gone, s.observedAt), s, pass.seen, s.observedAt).evidence;
  }

  /** The facts a step applies. */
  ghost function FactsOf(db: Db, step: Step): set<Fact>
  {
    match step
    case Observe(s) => FactSet(Prepared(s))
    case ObserveNative(o) => if o.source in db.sources then {NativeFact(o, db.sources[o.source].severity)} else {}
    case _ => {}
  }

  lemma SnapshotStems(db: Db, s: Snapshot)
    requires Inv(db) && Linked(db) && ApplySnapshot(db, s).Ok?
    ensures Stems(db.evidence, ApplySnapshot(db, s).value.evidence, FactSet(Prepared(s)))
  {
    hide Stems, ApplyFacts, Finish;
    var pass := Pass(db, {}, {}, {});
    var out := ApplyFacts(pass, Prepared(s), s.observedAt).value;
    ApplyFactsStem(pass, Prepared(s), s.observedAt);
    FinishStems(out, s);
    StemsTrans(db.evidence, out.db.evidence, Finish(out, s).evidence, FactSet(Prepared(s)), {});
    assert FactSet(Prepared(s)) + {} == FactSet(Prepared(s));
  }

  lemma NativeStems(db: Db, o: Observation)
    requires Inv(db) && Linked(db) && ApplyNative(db, o).Ok?
    ensures o.source in db.sources
    ensures Stems(db.evidence, ApplyNative(db, o).value.evidence, {NativeFact(o, db.sources[o.source].severity)})
  {
    hide NativeEffect, Shape, Stems;
    var source := db.sources[o.source];
    var decision := Evaluate(source.policy, source.streaks, o.outcome);
    var counted := Counted(db, o.source, decision.streaks);
    OutsideShape(db, counted);
    NativeEffectStems(counted, o, source.severity, decision);
  }

  lemma NativeEffectStems(db: Db, o: Observation, severity: Severity, decision: Decision)
    requires Shape(db) && Linked(db) && NativeEffect(db, o, severity, decision).Ok?
    ensures Stems(db.evidence, NativeEffect(db, o, severity, decision).value.evidence, {NativeFact(o, severity)})
  {
    hide ApplyFact, Shape, Stems, Settle, AdvanceDue, RecoverNative, NativeFact;
    var f := NativeFact(o, severity);
    if decision.triggered {
      ApplyFactStems(db, f, o.observedAt);
      var r := ApplyFact(db, f, o.observedAt);
      if r.Touched? {
        SettleEvidence(r.db, {r.impact}, {r.incident}, o.observedAt);
      }
    } else if decision.recovered {
      RecoverStems(db, o.source, o.observedAt);
      StemsWider(db.evidence, RecoverNative(db, o.source, o.observedAt).evidence, {}, {f});
    } else {
      AdvanceEvidence(db, o.observedAt);
      StemsSelf(db.evidence, {f});
    }
  }

  lemma SettleEvidence(db: Db, ps: set<Id>, ns: set<Id>, now: Time)
    ensures Settle(db, ps, ns, now).evidence == db.evidence
  {
  }

  lemma AdvanceEvidence(db: Db, now: Time)
    ensures AdvanceDue(db, now).evidence == db.evidence
  {
  }

  lemma CloseStems(db: Db, es: set<Id>, now: Time)
    ensures Stems(db.evidence, Close(db, es, now).evidence, {})
  {
    hide Settle;
    SettleEvidence(ResolveRows(db, es, now), ImpactsTouching(db, es), IncidentsTouching(db, es), now);
  }

  lemma RecoverStems(db: Db, source: string, now: Time)
    ensures Stems(db.evidence, RecoverNative(db, source, now).evidence, {})
  {
    hide Close, AdvanceDue;
    match ActiveRow(db.evidence, NativeIdentity(source))
    case Some(e) => CloseStems(db, {e}, now);
    case None => AdvanceEvidence(RearmIdentity(db, NativeIdentity(source), now), now);
  }

  lemma {:induction false} RecordResultsStem(db: Db, i: Id, results: seq<AckResult>)
    ensures var db2 := RecordResults(db, i, results);
      db2.evidence.Keys == db.evidence.Keys && forall e :: e in db.evidence ==> SameOrigin(db.evidence[e], db2.evidence[e])
  {
    if results != [] {
      RecordResultsStem(db, i, results[..|results| - 1]);
    }
  }

  lemma ClosingStems(db: Db, step: Step)
    requires Linked(db) && Enabled(db, step) && Attempt(db, step).Ok?
    requires step.Report? || step.Advance? || step.RuleOut? || step.ArchiveTarget?
    ensures Stems(db.evidence, Next(db, step).evidence, {})
  {
    hide Close, Settle, AdvanceDue, Stems;
    StemsSelf(db.evidence, {});
    match step
    case Report(id, now) =>
      if ActiveRow(db.evidence, id).Some? {
        CloseStems(db, {ActiveRow(db.evidence, id).value}, now);
      }
    case Advance(now) => AdvanceEvidence(db, now);
    case RuleOut(i, e, now) => RuledOutStems(db, i, e, now);
    case ArchiveTarget(t, now) => CloseStems(db.(targets := db.targets[t := Archived]), ActiveOn(db.evidence, t), now);
  }

  lemma RuledOutStems(db: Db, i: Id, e: Id, now: Time)
    requires Invalidate(db, i, e, now).Ok?
    ensures Stems(db.evidence, Invalidate(db, i, e, now).value.evidence, {})
  {
    hide Settle;
    var row := db.evidence[e].(active := false, resolvedAt := Some(now), invalidatedAt := Some(now));
    SettleEvidence(db.(evidence := db.evidence[e := row]), {row.impact}, {i}, now);
  }

  lemma QuietStems(db: Db, step: Step)
    requires Linked(db) && Enabled(db, step) && Attempt(db, step).Ok?
    requires !step.Observe? && !step.ObserveNative? && !step.Merge? && !step.Reassign? && !step.Remove?
    ensures Stems(db.evidence, Next(db, step).evidence, {})
  {
    if step.Answer? {
      RecordResultsStem(db, step.incident, step.results);
    } else if step.Report? || step.Advance? || step.RuleOut? || step.ArchiveTarget? {
      ClosingStems(db, step);
    }
  }

  lemma StepStems(db: Db, step: Step)
    requires Inv(db) && Linked(db) && Enabled(db, step) && !step.Merge? && !step.Reassign? && !step.Remove?
    ensures Stems(db.evidence, Next(db, step).evidence, FactsOf(db, step))
  {
    hide Stems, ApplySnapshot, ApplyNative;
    if Attempt(db, step).Err? {
      StemsSelf(db.evidence, FactsOf(db, step));
    } else if step.Observe? {
      SnapshotStems(db, step.s);
    } else if step.ObserveNative? {
      NativeStems(db, step.o);
    } else {
      QuietStems(db, step);
    }
  }

  /** The source that reports the fact watches its target. */
  ghost predicate InTime(seats: map<string, Seat>, f: Fact)
  {
    exists s :: s in seats && seats[s].target == f.target &&
      ((s != "" && f.source == s) || (seats[s].binding != "" && f.binding == seats[s].binding))
  }

  lemma StemmedIsSeated(site: Site, evidence2: map<Id, Evidence>, facts: set<Fact>)
    requires Seated(site) && Stems(site.db.evidence, evidence2, facts) && forall f :: f in facts ==> InTime(site.seats, f)
    ensures forall e :: e in evidence2 && evidence2[e].active ==> exists s :: Watches(site.seats, s, evidence2[e])
  {
    forall e | e in evidence2 && evidence2[e].active
      ensures exists s :: Watches(site.seats, s, evidence2[e])
    {
      if e in site.db.evidence && SameOrigin(site.db.evidence[e], evidence2[e]) {
        var s :| Watches(site.seats, s, site.db.evidence[e]);
        assert Watches(site.seats, s, evidence2[e]);
      } else {
        var f :| f in facts && Carries(evidence2[e], f);
        var s :| s in site.seats && site.seats[s].target == f.target &&
          ((s != "" && f.source == s) || (site.seats[s].binding != "" && f.binding == site.seats[s].binding));
        assert Watches(site.seats, s, evidence2[e]);
      }
    }
  }

  /** Every fact of the deed is reported by a source that watches its target when the fact is applied. */
  ghost predicate Prompt(site: Site, deed: Deed)
  {
    deed.Do? ==> forall f :: f in FactsOf(site.db, deed.step) ==> InTime(site.seats, f)
  }

  lemma DeedKeeps(site: Site, deed: Deed)
    requires Inv(site.db) && Seated(site) && Allowed(site, deed) && Prompt(site, deed)
    ensures Inv(Done(site, deed).db) && Seated(Done(site, deed))
  {
    hide Inv, Stems, InTime, FactsOf, Next, MoveSource;
    match deed
    case Do(step) =>
      StepInv(site.db, step);
      StepStems(site.db, step);
      StemmedIsSeated(site, Next(site.db, step).evidence, FactsOf(site.db, step));
    case Install(source, seat) => InstalledSeated(site, source, seat);
    case Move(source, origin, t, archive, order, now) =>
      if MoveSource(site, source, origin, t, archive, order, now).Ok? {
        SeatedMovesAreSafe(site, source, origin, t, archive, order, now);
      }
  }

  lemma InstalledSeated(site: Site, source: string, seat: Seat)
    requires Seated(site) && source !in site.seats
    ensures Seated(site.(seats := site.seats[source := seat]))
  {
    var seats2 := site.seats[source := seat];
    forall e | e in site.db.evidence && site.db.evidence[e].active
      ensures exists s :: Watches(seats2, s, site.db.evidence[e])
    {
      var s :| Watches(site.seats, s, site.db.evidence[e]);
      assert Watches(seats2, s, site.db.evidence[e]);
    }
  }

  ghost predicate AlwaysPrompt(site: Site, deeds: seq<Deed>)
    decreases |deeds|
  {
    deeds == [] || (Allowed(site, deeds[0]) && Prompt(site, deeds[0]) && AlwaysPrompt(Done(site, deeds[0]), deeds[1..]))
  }

  /** In every run whose reports arrive in time, whatever is moved and archived, the invariant holds. */
  lemma {:induction false} PromptRunsAreSafe(site: Site, deeds: seq<Deed>, site2: Site)
    requires Inv(site.db) && Seated(site) && Leads(site, deeds, site2) && AlwaysPrompt(site, deeds)
    ensures Inv(site2.db) && Seated(site2)
    decreases |deeds|
  {
    hide Inv, Seated, Done, Prompt, Allowed;
    if deeds != [] {
      DeedKeeps(site, deeds[0]);
      PromptRunsAreSafe(Done(site, deeds[0]), deeds[1..], site2);
    }
  }
}
