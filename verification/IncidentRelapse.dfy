/** A run that collides: one resource watched by two Uptime Kuma monitors, down, up, and down again on both. */
module IncidentRelapse {
  import opened Common
  import opened IncidentModel
  import opened IncidentCycle
  import opened IncidentSnapshot
  import opened IncidentInvariants
  import opened IncidentAggregates
  import opened IncidentIdentities
  import opened IncidentTransactions
  import opened IncidentRuns
  import opened IncidentSequence
  import opened IncidentUniqueness

  // ----- What the adapter sends -----

  /** A monitor found down, as the Uptime Kuma adapter reports it. */
  function Down(monitor: string, at: Time): Fact
  {
    Fact(Identity(UptimeKuma, monitor, AVAILABILITY), "kuma", monitor, "", "host", CanonicalNature(AVAILABILITY), "Host", 2, at, false, 0)
  }

  /** A reading of both monitors, with those that are down. */
  function Reading(at: Time, down: seq<string>): Snapshot
  {
    Snapshot(UptimeKuma, "kuma", true, at, false, {"a", "b"}, seq(|down|, k requires 0 <= k < |down| => Signal(Down(down[k], at), true)))
  }

  /** The run before the relapse: the resource is added, found down by one monitor, then found up. */
  function Before(): seq<Step>
  {
    [AddTarget("host"), SetConnector("kuma", 30), Observe(Reading(0, ["a"])), Observe(Reading(300, []))]
  }

  // ----- The states it goes through -----

  function Ready(): Db { Db(map["host" := Live], map["kuma" := 30], map[], map[], map[], map[], 0) }

  function FallenIncident(): Incident
  {
    Incident(CanonicalNature(AVAILABILITY), Active, Open, 2, 0, 0, 60, 60, None, None, None, NotApplicable, 1, 1, 1, false, 0, None, 0)
  }

  function FallenEvidence(): Evidence
  {
    Evidence(0, 1, "host", Down("a", 0).identity, "kuma", "a", "", true, 2, 0, None, false, NotApplicable, None, None)
  }

  /** The incident is open. */
  function Fallen(): Db
  {
    Ready().(incidents := map[0 := FallenIncident()], impacts := map[1 := Impact(0, "host", Active, 2, 0, None)],
             evidence := map[2 := FallenEvidence()], next := 3)
  }

  function RestedIncident(): Incident
  {
    FallenIncident().(status := Resolved, propagation := Closed, closedAt := Some(300), resolvedAt := Some(300),
                      activeCount := 0, resolutions := 1)
  }

  /** The incident is resolved. */
  function Rested(): Db
  {
    Fallen().(incidents := map[0 := RestedIncident()], impacts := map[1 := Impact(0, "host", Resolved, 2, 0, Some(300))],
              evidence := map[2 := FallenEvidence().(active := false, resolvedAt := Some(300))])
  }

  lemma DownIsComplete(at: Time)
    ensures Complete(Down("a", at)) && Complete(Down("b", at)) && Down("a", at).identity != Down("b", at).identity
  {
    assert !IsSpace("a"[0]) && !IsSpace("b"[0]) && !IsSpace("host"[0]) && !IsSpace(AVAILABILITY[0]) && !IsSpace("Host"[0]);
    assert "a"[0] != "b"[0];
  }

  lemma StatesLink()
    ensures Linked(Empty()) && Linked(Ready()) && Linked(Fallen()) && Linked(Rested())
  {
  }

  // ----- The first reading opens the incident -----

  lemma FirstReadingFact()
    ensures Prepared(Reading(0, ["a"])) == [Down("a", 0)]
  {
    assert RawFacts(Reading(0, ["a"])) == [Down("a", 0)];
    assert [Down("a", 0)][..0] == [];
  }

  lemma FirstFactOpens()
    requires Linked(Ready())
    ensures ApplyFact(Ready(), Down("a", 0), 0) == Touched(Fallen(), 0, 1)
  {
    hide Ready, Fallen, Complete, OpenImpact, AddEvidence, Down;
    DownIsComplete(0);
    FirstFactCreates();
    NothingKnown();
  }

  lemma NothingKnown()
    ensures var db, f := Ready(), Down("a", 0);
      && ActiveRow(db.evidence, f.identity).None? && !Suppressed(db.evidence, f.identity) && ValidSeverity(f.severity)
      && f.target in db.targets && db.targets[f.target] == Live
  {
  }

  lemma FirstFactCreates()
    requires Linked(Ready())
    ensures ValidSeverity(Down("a", 0).severity)
    ensures var o := OpenImpact(Ready(), Down("a", 0), 0);
      o.incident == 0 && o.impact == 1 && AddEvidence(o.db, Down("a", 0), 0, 1, 0) == Fallen()
  {
    hide Create, AddEvidence, Fallen, Join, Resume;
    NothingOpen();
    CreatedIds();
    CreatedRows();
  }

  lemma NothingOpen()
    ensures ActiveImpact(Ready(), Down("a", 0)).None? && PropagatingIncident(Ready(), Down("a", 0)).None?
    ensures ResumableImpact(Ready(), Down("a", 0), 0).None?
  {
  }

  lemma CreatedIds()
    ensures var o := Create(Ready(), Down("a", 0), 0); o.incident == 0 && o.impact == 1 && Linked(o.db)
  {
  }

  lemma CreatedRows()
    requires Linked(Create(Ready(), Down("a", 0), 0).db)
    ensures AddEvidence(Create(Ready(), Down("a", 0), 0).db, Down("a", 0), 0, 1, 0) == Fallen()
  {
    var db, f := Ready(), Down("a", 0);
    assert EvidenceWindow(db, f) == 60;
    var o := Create(db, f, 0);
    assert o.db.incidents == map[0 := FallenIncident()];
    assert AddEvidence(o.db, f, 0, 1, 0).evidence == map[2 := FallenEvidence()];
  }

  lemma FallenIsDerived()
    ensures RecomputeImpacts(Fallen(), {1}, 0) == Fallen() && RecomputeIncidents(Fallen(), {0}, 0) == Fallen()
    ensures AdvanceDue(Fallen(), 0) == Fallen()
  {
    var db := Fallen();
    assert Sustains(db.evidence[2], 1);
    assert LiveSeverities(db.evidence, 1) == {2};
    assert RecomputeImpacts(db, {1}, 0).impacts == db.impacts;
    assert ActiveOf(db.impacts, 0) == {1} && ImpactsOf(db.impacts, 0) == {1} && ActiveSeverities(db.impacts, 0) == {2};
    assert RecomputeIncidents(db, {0}, 0).incidents == db.incidents;
    assert Due(db, 0) == {};
    assert AdvanceDue(db, 0).incidents == db.incidents;
  }

  lemma FirstReadingFinishes()
    ensures Finish(Pass(Fallen(), {Down("a", 0).identity}, {1}, {0}), Reading(0, ["a"])) == Fallen()
  {
    hide Fallen, RecomputeImpacts, RecomputeIncidents, AdvanceDue;
    var db, s, seen := Fallen(), Reading(0, ["a"]), {Down("a", 0).identity};
    NothingGone();
    assert {1} + {} == {1} && {0} + {} == {0};
    FallenIsDerived();
  }

  /** The only row is reported: nothing is closed and nothing is re-armed. */
  lemma NothingGone()
    ensures var db, s, seen := Fallen(), Reading(0, ["a"]), {Down("a", 0).identity};
      && Gone(db, s, seen) == {} && ImpactsTouching(db, {}) == {} && IncidentsTouching(db, {}) == {}
      && Rearm(ResolveRows(db, {}, 0), s, seen, 0) == db
  {
    var db, s, seen := Fallen(), Reading(0, ["a"]), {Down("a", 0).identity};
    assert ResolveRows(db, {}, 0).evidence == db.evidence;
    assert Rearm(db, s, seen, 0).evidence == db.evidence;
  }

  lemma FirstReading()
    requires Linked(Ready())
    ensures ApplySnapshot(Ready(), Reading(0, ["a"])) == Ok(Fallen())
  {
    hide Fallen, Ready, ApplyFact, Finish;
    FirstReadingFact();
    FirstFactOpens();
    FirstReadingFinishes();
    var f := Down("a", 0);
    assert {} + {f.identity} == {f.identity} && {} + {1} == {1} && {} + {0} == {0};
    assert [f][1..] == [];
  }

  // ----- The second reading resolves it -----

  function Closed2(): Db
  {
    Fallen().(evidence := map[2 := FallenEvidence().(active := false, resolvedAt := Some(300))])
  }

  lemma RowGoes()
    ensures var db, s := Fallen(), Reading(300, []);
      && Gone(db, s, {}) == {2} && ImpactsTouching(db, {2}) == {1} && IncidentsTouching(db, {2}) == {0}
      && Rearm(ResolveRows(db, {2}, 300), s, {}, 300) == Closed2()
  {
    var db, s := Fallen(), Reading(300, []);
    assert 2 in Gone(db, s, {});
    assert ResolveRows(db, {2}, 300).evidence == Closed2().evidence;
    assert Rearm(Closed2(), s, {}, 300).evidence == Closed2().evidence;
  }

  lemma RestedIsDerived()
    ensures Settle(Closed2(), {1}, {0}, 300) == Rested() && AdvanceDue(Rested(), 300) == Rested()
  {
    var db := Closed2();
    assert LiveSeverities(db.evidence, 1) == {};
    var settled := RecomputeImpacts(db, {1}, 300);
    assert settled.impacts == Rested().impacts;
    assert ActiveOf(settled.impacts, 0) == {} && ImpactsOf(settled.impacts, 0) == {1} && ActiveSeverities(settled.impacts, 0) == {};
    assert RecomputeIncidents(settled, {0}, 300).incidents == Rested().incidents;
    assert Due(Rested(), 300) == {};
    assert AdvanceDue(Rested(), 300).incidents == Rested().incidents;
  }

  lemma SecondReading()
    requires Linked(Fallen())
    ensures ApplySnapshot(Fallen(), Reading(300, [])) == Ok(Rested())
  {
    hide Fallen, Rested, Closed2, Settle, AdvanceDue;
    assert RawFacts(Reading(300, [])) == [];
    RowGoes();
    RestedIsDerived();
    assert {} + {1} == {1} && {} + {0} == {0};
  }

  // ----- Before the relapse all is well -----

  lemma RestedIsReached()
    ensures Reaches(Empty(), Before(), Rested())
  {
    hide ApplySnapshot, Fallen, Rested, Reading;
    StatesLink();
    FirstReading();
    SecondReading();
    var s1, s2 := Observe(Reading(0, ["a"])), Observe(Reading(300, []));
    var empty := Empty();
    var added := empty.(targets := map["host" := Live]);
    assert Next(empty, AddTarget("host")) == added;
    assert Next(added, SetConnector("kuma", 30)) == Ready();
    assert Before()[1..] == [SetConnector("kuma", 30), s1, s2] && Before()[1..][1..] == [s1, s2] && [s1, s2][1..] == [s2] && [s2][1..] == [];
    assert Reaches(Rested(), [], Rested());
    assert Reaches(Fallen(), [s2], Rested());
    assert Reaches(Ready(), [s1, s2], Rested());
    assert Reaches(added, [SetConnector("kuma", 30), s1, s2], Rested());
  }

  lemma BeforeIsTame(keyOf: KeyOf)
    requires CoherentNature(CanonicalNature(AVAILABILITY), keyOf)
    ensures forall k :: 0 <= k < |Before()| ==> Tame(Before()[k], keyOf)
    ensures Plain(Before())
  {
    FirstReadingFact();
    assert RawFacts(Reading(300, [])) == [];
  }

  /** Reached from nothing, with one active impact at most and balanced resumptions. */
  lemma RestedIsRegular(keyOf: KeyOf)
    requires CoherentNature(CanonicalNature(AVAILABILITY), keyOf)
    ensures Inv(Rested()) && Linked(Rested()) && AllBalanced(Rested()) && OnePerNature(Rested()) && Coherent(Rested(), keyOf)
  {
    hide Rested, Before, Inv;
    StatesLink();
    RestedIsReached();
    BeforeIsTame(keyOf);
    FreshInv(Empty());
    PlainIsClear(Empty(), Before(), Rested());
    RunKeeps(Empty(), Before(), Rested(), keyOf);
  }

  // ----- The relapse -----

  lemma RelapseFacts()
    ensures Prepared(Reading(600, ["a", "b"])) == [Down("a", 600), Down("b", 600)]
  {
    var a, b := Down("a", 600), Down("b", 600);
    assert RawFacts(Reading(600, ["a", "b"])) == [a, b];
    assert [a, b][..1] == [a] && [a][..0] == [];
    assert SortKey(a)[0] == 'a' && SortKey(b)[0] == 'b';
    assert Sort([a]) == [a];
  }

  function Resumed(): Db
  {
    AddEvidence(Resume(Rested(), 1, Down("a", 600), 600).db, Down("a", 600), 0, 1, 600)
  }

  lemma FirstRelapseResumes()
    requires Linked(Rested())
    ensures ApplyFact(Rested(), Down("a", 600), 600) == Touched(Resumed(), 0, 1)
  {
    hide Rested, Complete, OpenImpact, AddEvidence, Down, Resume;
    DownIsComplete(600);
    RestIsResumable();
    RestedRows();
  }

  lemma RestedRows()
    ensures var db, f := Rested(), Down("a", 600);
      && ActiveRow(db.evidence, f.identity).None? && !Suppressed(db.evidence, f.identity) && ValidSeverity(f.severity)
      && f.target in db.targets && db.targets[f.target] == Live
      && 1 in db.impacts && db.impacts[1].incident == 0 && 0 in db.incidents
  {
  }

  lemma RestIsResumable()
    requires Linked(Rested())
    ensures ValidSeverity(Down("a", 600).severity) && 1 in Rested().impacts && Rested().impacts[1].incident in Rested().incidents
    ensures OpenImpact(Rested(), Down("a", 600), 600) == Resume(Rested(), 1, Down("a", 600), 600)
    ensures Resume(Rested(), 1, Down("a", 600), 600).incident == 0 && Resume(Rested(), 1, Down("a", 600), 600).impact == 1
  {
    hide Resume, Join, Create;
    var db, f := Rested(), Down("a", 600);
    RestedHosts();
    assert Resumable(db, 1, f, 600);
    assert ResumableImpact(db, f, 600) == Some(1);
    ResumedAt();
  }

  lemma RestedHosts()
    ensures ActiveImpact(Rested(), Down("a", 600)).None? && PropagatingIncident(Rested(), Down("a", 600)).None?
  {
  }

  lemma ResumedAt()
    ensures var o := Resume(Rested(), 1, Down("a", 600), 600); o.incident == 0 && o.impact == 1
  {
  }

  /** What the second fact finds: the incident has an active impact, and is still marked resolved. */
  lemma ResumedState()
    requires Linked(Rested())
    ensures var db, f := Resumed(), Down("b", 600);
      && Linked(db) && ActiveRow(db.evidence, f.identity).None? && !Suppressed(db.evidence, f.identity)
      && f.target in db.targets && db.targets[f.target] == Live
      && db.incidents == map[0 := RestedIncident().(resumptions := 1, resumedAt := Some(600))]
      && db.impacts == map[1 := Impact(0, "host", Active, 2, 0, None)]
      && db.evidence.Keys == {2, 3} && !db.evidence[2].active && db.evidence[3].impact == 1 && db.evidence[3].active
      && db.evidence[3].invalidatedAt.None? && db.evidence[3].identity == Down("a", 600).identity && db.next == 4
  {
    DownIsComplete(600);
  }

  lemma ResumedIsResumable()
    requires Linked(Rested())
    ensures var db, f := Resumed(), Down("b", 600);
      ActiveImpact(db, f).None? && PropagatingIncident(db, f).None? && ResumableImpact(db, f, 600) == Some(1)
  {
    hide Resumed, Rested;
    ResumedState();
    var db, f := Resumed(), Down("b", 600);
    assert Resumable(db, 1, f, 600);
  }

  /** Resumed twice, after one resolution. */
  ghost predicate Doubled(db: Db)
  {
    && 0 in db.incidents && db.incidents[0].resumptions == 2 && db.incidents[0].resolutions == 1
    && db.incidents[0].propagation == Closed && 1 in db.impacts && db.impacts[1].incident == 0
    && 3 in db.evidence && Sustains(db.evidence[3], 1)
    && forall e :: e in db.evidence && db.evidence[e].active ==> db.evidence[e].identity in {Down("a", 600).identity, Down("b", 600).identity}
  }

  lemma SecondRelapseResumes()
    requires Linked(Rested()) && Linked(Resumed())
    ensures var r := ApplyFact(Resumed(), Down("b", 600), 600); r.Touched? && r.incident == 0 && r.impact == 1 && Doubled(r.db)
  {
    hide Rested, Resumed, Join, Create;
    DownIsComplete(600);
    ResumedState();
    ResumedIsResumable();
    ResumedAgain();
  }

  lemma ResumedAgain()
    requires Linked(Rested()) && Linked(Resumed())
    ensures 1 in Resumed().impacts && Resumed().impacts[1].incident in Resumed().incidents
    ensures var o := Resume(Resumed(), 1, Down("b", 600), 600);
      && o.incident == 0 && o.impact == 1 && 0 in o.db.incidents && Linked(o.db)
      && Doubled(AddEvidence(o.db, Down("b", 600), 0, 1, 600))
  {
    hide Rested, Resumed;
    ResumedState();
  }

  // ----- The end of the reading -----

  /** Active, with more resumptions than resolutions. */
  ghost predicate Overcounted(db: Db)
  {
    0 in db.incidents && db.incidents[0].status == Active && db.incidents[0].resumptions == 2 && db.incidents[0].resolutions == 1
  }

  lemma OvercountedIsUnbalanced(db: Db)
    requires Overcounted(db)
    ensures !AllBalanced(db)
  {
    assert !Balanced(db.impacts, 0, db.incidents[0]);
  }

  lemma RelapseFinishes(pass: Pass)
    requires Doubled(pass.db) && pass.seen == {Down("a", 600).identity, Down("b", 600).identity}
    requires 1 in pass.impacts && 0 in pass.incidents
    ensures Overcounted(Finish(pass, Reading(600, ["a", "b"])))
  {
    var db, s := pass.db, Reading(600, ["a", "b"]);
    assert Gone(db, s, pass.seen) == {};
    var rearmed := Rearm(ResolveRows(db, {}, 600), s, pass.seen, 600);
    assert rearmed.incidents == db.incidents && rearmed.impacts == db.impacts && Sustains(rearmed.evidence[3], 1);
    SettledOver(rearmed, pass.impacts + ImpactsTouching(db, {}), pass.incidents + IncidentsTouching(db, {}));
  }

  lemma SettledOver(db: Db, ps: set<Id>, ns: set<Id>)
    requires 0 in db.incidents && db.incidents[0].resumptions == 2 && db.incidents[0].resolutions == 1
    requires db.incidents[0].propagation == Closed && 0 in ns && 1 in ps
    requires 1 in db.impacts && db.impacts[1].incident == 0 && 3 in db.evidence && Sustains(db.evidence[3], 1)
    ensures Overcounted(AdvanceDue(Settle(db, ps, ns, 600), 600))
  {
    var settled := RecomputeImpacts(db, ps, 600);
    assert db.evidence[3].severity in LiveSeverities(db.evidence, 1);
    assert 1 in ActiveOf(settled.impacts, 0);
    AggregatedAlive(settled.evidence, settled.impacts, LiveTargetCount(settled.targets), 0, settled.incidents[0], 600);
    assert 0 !in Due(Settle(db, ps, ns, 600), 600);
  }

  lemma RelapseResumesTwice()
    requires Linked(Rested())
    ensures ApplySnapshot(Rested(), Reading(600, ["a", "b"])).Ok?
    ensures Overcounted(ApplySnapshot(Rested(), Reading(600, ["a", "b"])).value)
  {
    hide ApplyFact, Finish, Resumed, Rested, Doubled, Overcounted;
    RelapseFacts();
    DownIsComplete(600);
    var a, b, pass := Down("a", 600), Down("b", 600), Pass(Rested(), {}, {}, {});
    var mid := Pass(Resumed(), {a.identity}, {1}, {0});
    FirstRelapseResumes();
    assert {} + {a.identity} == {a.identity} && {} + {1} == {1} && {} + {0} == {0};
    assert ApplyOne(pass, a, 600) == Ok(mid);
    assert [a, b][1..] == [b] && [b][1..] == [];
    ResumedState();
    SecondRelapseResumes();
    assert ApplyOne(mid, b, 600).Ok?;
    RelapseFinishes(ApplyOne(mid, b, 600).value);
  }

  /**
   * From empty tables, a run of readings that the adapter does send. Before its last reading one active impact per spot
   * and balanced resumptions; after it two resumptions for one resolution.
   */
  lemma RelapseBreaksBalance(zabbix: set<string>)
    ensures Fresh(Empty()) && Reaches(Empty(), Before(), Rested()) && Linked(Rested()) && OnePerNature(Rested()) && AllBalanced(Rested())
    ensures Reaches(Empty(), Before() + [Observe(Reading(600, ["a", "b"]))], Next(Rested(), Observe(Reading(600, ["a", "b"]))))
    ensures BuiltByAdapter(zabbix, Down("a", 600).nature) && BuiltByAdapter(zabbix, Down("b", 600).nature)
    ensures var db2 := Next(Rested(), Observe(Reading(600, ["a", "b"]))); Overcounted(db2) && !AllBalanced(db2)
  {
    hide Rested, Before, Reading, ApplySnapshot, OnePerNature, AllBalanced, Overcounted;
    var last := Observe(Reading(600, ["a", "b"]));
    AdaptersAreCoherent(zabbix, CanonicalNature(AVAILABILITY));
    RestedIsRegular((scope, namespace, fingerprint) => NatureKey(zabbix, scope, namespace, fingerprint));
    RelapseResumesTwice();
    OvercountedIsUnbalanced(Next(Rested(), last));
    RestedIsReached();
    ReachesSnoc(Empty(), Before(), Rested(), last);
  }

  lemma {:induction false} ReachesSnoc(db: Db, steps: seq<Step>, db2: Db, last: Step)
    requires Reaches(db, steps, db2) && Linked(db2) && Enabled(db2, last)
    ensures Reaches(db, steps + [last], Next(db2, last))
    decreases |steps|
  {
    if steps == [] {
      assert [last][1..] == [];
    } else {
      assert (steps + [last])[1..] == steps[1..] + [last];
      ReachesSnoc(Next(db, steps[0]), steps[1..], db2, last);
    }
  }
}
