/** A run in which one snapshot resolves an incident and resumes it: a problem changes nature while another takes its place. */
module IncidentFlicker {
  import opened Common
  import opened IncidentModel
  import opened IncidentCycle
  import opened IncidentSnapshot
  import opened IncidentInvariants
  import opened IncidentAggregates
  import opened IncidentIdentities
  import opened IncidentTransactions
  import opened IncidentRuns
  import opened IncidentSequence
  import opened IncidentUniqueness
  import opened IncidentResumptions

  // ----- What the adapter sends -----

  function ProblemNature(fingerprint: string): Nature
  {
    ConnectorNature("zbx", "zabbix:" + "zbx" + ":" + fingerprint, fingerprint)
  }

  /** A problem of the host, as the Zabbix adapter reports it. */
  function Problem(event: string, fingerprint: string, openedAt: Time): Fact
  {
    Fact(Identity(Zabbix, "h", event), "zbx", "h", "", "host", ProblemNature(fingerprint), "Problem", 2, openedAt, false, 0)
  }

  function Reading(at: Time, problems: seq<Fact>): Snapshot
  {
    Snapshot(Zabbix, "zbx", true, at, true, {}, seq(|problems|, k requires 0 <= k < |problems| => Signal(problems[k], true)))
  }

  /** The problem opens, lasts, and then is found to be of another nature while a second one has the first nature. */
  function Run(): seq<Step>
  {
    [AddTarget("host"), SetConnector("zbx", 30), Observe(First()), Observe(Second()), Observe(Third())]
  }

  function First(): Snapshot { Reading(0, [Problem("1", "x", 0)]) }

  function Second(): Snapshot { Reading(300, [Problem("1", "x", 0)]) }

  function Third(): Snapshot { Reading(600, [Problem("1", "y", 0), Problem("2", "x", 500)]) }

  // ----- The states it goes through -----

  function Ready(): Db { Db(map["host" := Live], map["zbx" := 30], map[], map[], map[], map[], 0) }

  function Opened0(): Incident
  {
    Incident(ProblemNature("x"), Active, Open, 2, 0, 0, 60, 60, None, None, None, NotApplicable, 1, 1, 1, false, 0, None, 0)
  }

  function Row(): Evidence
  {
    Evidence(0, 1, "host", Identity(Zabbix, "h", "1"), "zbx", "h", "", true, 2, 0, None, false, NotApplicable, None, None)
  }

  function Fallen(): Db
  {
    Ready().(incidents := map[0 := Opened0()], impacts := map[1 := Impact(0, "host", Active, 2, 0, None)], evidence := map[2 := Row()], next := 3)
  }

  /** The window has closed; the incident lasts. */
  function Lasting(): Db
  {
    Fallen().(incidents := map[0 := Opened0().(propagation := Closed, closedAt := Some(300))])
  }

  /** Within the third reading: the problem has left its nature. */
  function Left(): Db
  {
    Lasting().(
      incidents := map[0 := Lasting().incidents[0].(status := Resolved, resolvedAt := Some(600), activeCount := 0, resolutions := 1)],
      impacts := map[1 := Impact(0, "host", Resolved, 2, 0, Some(600))],
      evidence := map[2 := Row().(active := false, resolvedAt := Some(600))])
  }

  lemma Facts(at: Time)
    ensures Complete(Problem("1", "x", at)) && Complete(Problem("1", "y", at)) && Complete(Problem("2", "x", at))
    ensures Problem("1", "x", at).identity != Problem("2", "x", at).identity
    ensures ProblemNature("x").key != ProblemNature("y").key && ProblemNature("x").eligible && ProblemNature("y").eligible
  {
    assert !IsSpace("h"[0]) && !IsSpace("1"[0]) && !IsSpace("2"[0]) && !IsSpace("host"[0]) && !IsSpace("Problem"[0]);
    assert !IsSpace("x"[0]) && !IsSpace("y"[0]) && "1"[0] != "2"[0];
    var kx, ky := ProblemNature("x").key, ProblemNature("y").key;
    assert !IsSpace(kx[0]) && !IsSpace(ky[0]);
    assert kx[|kx| - 1] == 'x' && ky[|ky| - 1] == 'y';
  }

  lemma OneFact(at: Time)
    ensures Prepared(Reading(at, [Problem("1", "x", 0)])) == [Problem("1", "x", 0)]
  {
    assert RawFacts(Reading(at, [Problem("1", "x", 0)])) == [Problem("1", "x", 0)];
    assert [Problem("1", "x", 0)][..0] == [];
  }

  lemma StatesLink()
    ensures Linked(Empty()) && Linked(Ready()) && Linked(Fallen()) && Linked(Lasting()) && Linked(Left())
  {
  }

  // ----- The first reading -----

  lemma FirstOpens()
    requires Linked(Ready())
    ensures ApplyFact(Ready(), Problem("1", "x", 0), 0) == Touched(Fallen(), 0, 1)
  {
    hide Ready, Fallen, Complete, OpenImpact, AddEvidence, Problem;
    Facts(0);
    NothingKnown();
    FirstCreates();
  }

  lemma NothingKnown()
    ensures var db, f := Ready(), Problem("1", "x", 0);
      && ActiveRow(db.evidence, f.identity).None? && !Suppressed(db.evidence, f.identity) && ValidSeverity(f.severity)
      && f.target in db.targets && db.targets[f.target] == Live
  {
  }

  lemma FirstCreates()
    requires Linked(Ready())
    ensures ValidSeverity(Problem("1", "x", 0).severity)
    ensures var o := OpenImpact(Ready(), Problem("1", "x", 0), 0);
      o.incident == 0 && o.impact == 1 && AddEvidence(o.db, Problem("1", "x", 0), 0, 1, 0) == Fallen()
  {
    hide Create, AddEvidence, Fallen, Join, Resume;
    NothingOpen();
    CreatedRows();
  }

  lemma NothingOpen()
    ensures ActiveImpact(Ready(), Problem("1", "x", 0)).None? && PropagatingIncident(Ready(), Problem("1", "x", 0)).None?
    ensures ResumableImpact(Ready(), Problem("1", "x", 0), 0).None?
  {
  }

  lemma CreatedRows()
    ensures var o := Create(Ready(), Problem("1", "x", 0), 0);
      o.incident == 0 && o.impact == 1 && Linked(o.db) && AddEvidence(o.db, Problem("1", "x", 0), 0, 1, 0) == Fallen()
  {
    Facts(0);
    var db, f := Ready(), Problem("1", "x", 0);
    assert EvidenceWindow(db, f) == 60;
    var o := Create(db, f, 0);
    assert o.db.incidents == map[0 := Opened0()];
    assert AddEvidence(o.db, f, 0, 1, 0).evidence == map[2 := Row()];
  }

  /** A state whose only evidence is reported: the end of the snapshot only recomputes. */
  lemma ReportedFinishes(db: Db, s: Snapshot)
    requires (forall e :: e in db.evidence ==> db.evidence[e].identity == Identity(Zabbix, "h", "1"))
    ensures Finish(Pass(db, {Identity(Zabbix, "h", "1")}, {1}, {0}), s) == AdvanceDue(Settle(db, {1}, {0}, s.observedAt), s.observedAt)
  {
    var seen := {Identity(Zabbix, "h", "1")};
    assert Gone(db, s, seen) == {} && ImpactsTouching(db, {}) == {} && IncidentsTouching(db, {}) == {};
    assert ResolveRows(db, {}, s.observedAt).evidence == db.evidence;
    assert Rearm(db, s, seen, s.observedAt).evidence == db.evidence;
    assert {1} + {} == {1} && {0} + {} == {0};
  }

  lemma FallenSettles()
    ensures AdvanceDue(Settle(Fallen(), {1}, {0}, 0), 0) == Fallen()
  {
    var db := Fallen();
    assert Sustains(db.evidence[2], 1);
    assert LiveSeverities(db.evidence, 1) == {2};
    assert RecomputeImpacts(db, {1}, 0).impacts == db.impacts;
    assert ActiveOf(db.impacts, 0) == {1} && ImpactsOf(db.impacts, 0) == {1} && ActiveSeverities(db.impacts, 0) == {2};
    assert RecomputeIncidents(db, {0}, 0).incidents == db.incidents;
    assert Due(db, 0) == {};
    assert AdvanceDue(db, 0).incidents == db.incidents;
  }

  lemma FirstReading()
    requires Linked(Ready())
    ensures ApplySnapshot(Ready(), First()) == Ok(Fallen())
  {
    hide Ready, ApplyFact, Finish;
    OneFact(0);
    FirstOpens();
    ReportedFinishes(Fallen(), First());
    FallenSettles();
    var f := Problem("1", "x", 0);
    assert {} + {f.identity} == {f.identity} && {} + {1} == {1} && {} + {0} == {0};
    assert [f][1..] == [];
  }

  // ----- The second reading -----

  lemma SecondRefreshes()
    requires Linked(Fallen())
    ensures ApplyFact(Fallen(), Problem("1", "x", 0), 300) == Touched(Fallen(), 0, 1)
  {
    Facts(0);
    var db, f := Fallen(), Problem("1", "x", 0);
    assert db.evidence[2].active && db.evidence[2].identity == f.identity;
    assert ActiveRow(db.evidence, f.identity) == Some(2);
    assert Refresh(db, 2, f, 300).evidence == db.evidence;
  }

  lemma LastingSettles()
    ensures AdvanceDue(Settle(Fallen(), {1}, {0}, 300), 300) == Lasting()
  {
    var db := Fallen();
    assert Sustains(db.evidence[2], 1);
    assert LiveSeverities(db.evidence, 1) == {2};
    assert RecomputeImpacts(db, {1}, 300).impacts == db.impacts;
    assert ActiveOf(db.impacts, 0) == {1} && ImpactsOf(db.impacts, 0) == {1} && ActiveSeverities(db.impacts, 0) == {2};
    assert RecomputeIncidents(db, {0}, 300).incidents == Lasting().incidents;
    assert Due(Lasting(), 300) == {};
    assert AdvanceDue(Lasting(), 300).incidents == Lasting().incidents;
  }

  lemma SecondReading()
    requires Linked(Fallen())
    ensures ApplySnapshot(Fallen(), Second()) == Ok(Lasting())
  {
    hide ApplyFact, Finish, Lasting;
    OneFact(300);
    SecondRefreshes();
    ReportedFinishes(Fallen(), Second());
    LastingSettles();
    var f := Problem("1", "x", 0);
    assert {} + {f.identity} == {f.identity} && {} + {1} == {1} && {} + {0} == {0};
    assert [f][1..] == [];
  }

  // ----- The third reading -----

  lemma TwoFacts()
    ensures Prepared(Third()) == [Problem("1", "y", 0), Problem("2", "x", 500)]
  {
    var a, b := Problem("1", "y", 0), Problem("2", "x", 500);
    assert RawFacts(Third()) == [a, b];
    assert [a, b][..1] == [a] && [a][..0] == [];
    assert Sort([a]) == [a];
  }

  lemma FirstLeaves()
    ensures 2 in Lasting().evidence && Retire(Lasting(), 2, 600) == Left()
  {
    var db := Lasting();
    var closed := ResolveRows(db, {2}, 600);
    assert closed.evidence == Left().evidence;
    assert LiveSeverities(closed.evidence, 1) == {};
    var settled := RecomputeImpacts(closed, {1}, 600);
    assert settled.impacts == Left().impacts;
    assert ActiveOf(settled.impacts, 0) == {} && ImpactsOf(settled.impacts, 0) == {1} && ActiveSeverities(settled.impacts, 0) == {};
    assert RecomputeIncidents(settled, {0}, 600).incidents == Left().incidents;
  }

  /** The problem of another nature opens an incident of its own. */
  function Apart(): Db
    requires Linked(Create(Left(), Problem("1", "y", 0), 600).db)
  {
    AddEvidence(Create(Left(), Problem("1", "y", 0), 600).db, Problem("1", "y", 0), 3, 4, 600)
  }

  lemma LeftIsForeign()
    ensures var f := Problem("1", "y", 0);
      ActiveImpact(Left(), f).None? && PropagatingIncident(Left(), f).None? && ResumableImpact(Left(), f, 600).None?
  {
    Facts(0);
  }

  lemma ApartLinks()
    ensures Linked(Create(Left(), Problem("1", "y", 0), 600).db)
    ensures Create(Left(), Problem("1", "y", 0), 600).incident == 3 && Create(Left(), Problem("1", "y", 0), 600).impact == 4
  {
  }

  lemma FirstMoves()
    requires Linked(Lasting()) && Linked(Left()) && Linked(Create(Left(), Problem("1", "y", 0), 600).db)
    ensures ApplyFact(Lasting(), Problem("1", "y", 0), 600) == Touched(Apart(), 3, 4)
  {
    hide Create, AddEvidence, Left, Retire, Join, Resume;
    Facts(0);
    FirstLeaves();
    FirstWasThere();
    LeftRows();
    LeftIsForeign();
    ApartLinks();
  }

  lemma FirstWasThere()
    ensures ActiveRow(Lasting().evidence, Problem("1", "y", 0).identity) == Some(2)
    ensures Lasting().evidence[2].invalidatedAt.None? && Lasting().evidence[2].incident == 0
    ensures 0 in Lasting().incidents && Lasting().incidents[0].nature == ProblemNature("x")
  {
    assert Lasting().evidence[2].active && Lasting().evidence[2].identity == Problem("1", "y", 0).identity;
  }

  lemma LeftRows()
    ensures var db := Left();
      && (forall id :: ActiveRow(db.evidence, id).None? && !Suppressed(db.evidence, id))
      && "host" in db.targets && db.targets["host"] == Live
  {
  }

  lemma ApartTables()
    requires Linked(Create(Left(), Problem("1", "y", 0), 600).db)
    ensures var db := Apart();
      && Linked(db) && "host" in db.targets && db.targets["host"] == Live
      && 0 in db.incidents && db.incidents[0] == Left().incidents[0] && 1 in db.impacts && db.impacts[1] == Left().impacts[1]
      && db.impacts.Keys == {1, 4} && db.incidents.Keys == {0, 3} && db.impacts[4].incident == 3 && db.incidents[3].nature == ProblemNature("y")
      && db.next == 6
  {
    hide EvidenceWindow;
  }

  lemma ApartEvidence()
    requires Linked(Create(Left(), Problem("1", "y", 0), 600).db)
    ensures var evidence := Apart().evidence;
      && evidence.Keys == {2, 5} && !evidence[2].active && evidence[2].invalidatedAt.None? && evidence[2].impact == 1
      && evidence[5].impact == 4 && evidence[5].identity == Identity(Zabbix, "h", "1") && evidence[5].invalidatedAt.None?
  {
    hide EvidenceWindow;
  }

  /** What the second fact finds: the first incident resolved a moment ago. */
  lemma ApartRows()
    requires Linked(Create(Left(), Problem("1", "y", 0), 600).db)
    ensures var db, f := Apart(), Problem("2", "x", 500);
      && Linked(db) && ActiveRow(db.evidence, f.identity).None? && !Suppressed(db.evidence, f.identity)
      && f.target in db.targets && db.targets[f.target] == Live
      && 0 in db.incidents && db.incidents[0] == Left().incidents[0] && 1 in db.impacts && db.impacts[1] == Left().impacts[1]
      && db.impacts.Keys == {1, 4} && db.incidents.Keys == {0, 3} && db.impacts[4].incident == 3 && db.incidents[3].nature == ProblemNature("y")
      && db.evidence.Keys == {2, 5} && !db.evidence[2].active && db.evidence[5].impact == 4 && db.evidence[5].identity == Identity(Zabbix, "h", "1")
      && db.evidence[2].impact == 1 && db.next == 6
  {
    hide Apart, Left, Create;
    ApartTables();
    ApartEvidence();
    Facts(0);
  }

  lemma SecondFinds()
    requires Linked(Create(Left(), Problem("1", "y", 0), 600).db)
    ensures var db, f := Apart(), Problem("2", "x", 500);
      ActiveImpact(db, f).None? && PropagatingIncident(db, f).None? && ResumableImpact(db, f, 600) == Some(1)
  {
    hide Apart, Left, Problem, Create, Resumable, Hosts, Propagates, ActiveImpact, PropagatingIncident, ResumableImpact;
    var db, f := Apart(), Problem("2", "x", 500);
    ApartRows();
    OnlyFirstBears();
    NothingTakes();
  }

  /** Only the first impact bears the nature of the second problem, and it is resumable. */
  lemma OnlyFirstBears()
    requires Linked(Create(Left(), Problem("1", "y", 0), 600).db)
    ensures var db, f := Apart(), Problem("2", "x", 500);
      && (forall p :: !Hosts(db, p, f.target, f.nature.key))
      && (forall p :: Resumable(db, p, f, 600) <==> p == 1)
  {
    hide Apart;
    Facts(500);
    ApartRows();
    var db, f := Apart(), Problem("2", "x", 500);
    assert forall p :: Bears(db, p, f.target, f.nature.key) <==> p == 1;
  }

  /** The first incident is resolved, and the other one is of another nature. */
  lemma NothingTakes()
    requires Linked(Create(Left(), Problem("1", "y", 0), 600).db)
    ensures var db, f := Apart(), Problem("2", "x", 500); forall i :: i in db.incidents ==> !Propagates(db.incidents[i], f)
  {
    hide Apart;
    ApartRows();
    assert "x"[0] != "y"[0];
  }

  /** The first incident is resumed, and still marked resolved. */
  ghost predicate BackAgain(db: Db)
  {
    && 0 in db.incidents && db.incidents[0].resumptions == 1 && db.incidents[0].propagation == Closed
    && 1 in db.impacts && db.impacts[1].incident == 0 && 6 in db.evidence && Sustains(db.evidence[6], 1)
    && forall e :: e in db.evidence && db.evidence[e].active ==>
      db.evidence[e].identity in {Identity(Zabbix, "h", "1"), Identity(Zabbix, "h", "2")}
  }

  lemma SecondResumes()
    requires Linked(Create(Left(), Problem("1", "y", 0), 600).db) && Linked(Apart())
    ensures var r := ApplyFact(Apart(), Problem("2", "x", 500), 600); r.Touched? && r.incident == 0 && r.impact == 1 && BackAgain(r.db)
  {
    hide Apart, Join, Create;
    Facts(500);
    ApartRows();
    SecondFinds();
    ResumedRows();
  }

  lemma ResumedRows()
    requires Linked(Create(Left(), Problem("1", "y", 0), 600).db) && Linked(Apart())
    ensures 1 in Apart().impacts && Apart().impacts[1].incident in Apart().incidents
    ensures var o := Resume(Apart(), 1, Problem("2", "x", 500), 600);
      && o.incident == 0 && o.impact == 1 && 0 in o.db.incidents && Linked(o.db)
      && BackAgain(AddEvidence(o.db, Problem("2", "x", 500), 0, 1, 600))
  {
    hide Apart;
    ApartRows();
  }

  /** Nothing is gone at the end of the reading; the recomputation makes the incident active again. */
  lemma ThirdFinishes(pass: Pass)
    requires BackAgain(pass.db) && pass.seen == {Identity(Zabbix, "h", "1"), Identity(Zabbix, "h", "2")}
    requires 1 in pass.impacts && 0 in pass.incidents
    ensures var db2 := Finish(pass, Third()); 0 in db2.incidents && db2.incidents[0].status == Active && db2.incidents[0].resumptions == 1
  {
    var db, s := pass.db, Third();
    assert Gone(db, s, pass.seen) == {};
    var rearmed := Rearm(ResolveRows(db, {}, 600), s, pass.seen, 600);
    BackIsSustained(db, pass.seen);
    var ps, ns := pass.impacts + ImpactsTouching(db, {}), pass.incidents + IncidentsTouching(db, {});
    SettledBack(rearmed, ps, ns);
  }

  lemma BackIsSustained(db: Db, seen: set<Identity>)
    requires BackAgain(db)
    ensures var rearmed := Rearm(ResolveRows(db, {}, 600), Third(), seen, 600);
      rearmed.incidents == db.incidents && rearmed.impacts == db.impacts && 6 in rearmed.evidence && Sustains(rearmed.evidence[6], 1)
  {
  }

  lemma SettledBack(db: Db, ps: set<Id>, ns: set<Id>)
    requires 0 in db.incidents && db.incidents[0].resumptions == 1 && db.incidents[0].propagation == Closed && 0 in ns && 1 in ps
    requires 1 in db.impacts && db.impacts[1].incident == 0 && 6 in db.evidence && Sustains(db.evidence[6], 1)
    ensures var db2 := AdvanceDue(Settle(db, ps, ns, 600), 600);
      0 in db2.incidents && db2.incidents[0].status == Active && db2.incidents[0].resumptions == 1
  {
    var settled := RecomputeImpacts(db, ps, 600);
    assert db.evidence[6].severity in LiveSeverities(db.evidence, 1);
    assert 1 in ActiveOf(settled.impacts, 0);
    AggregatedAlive(settled.evidence, settled.impacts, LiveTargetCount(settled.targets), 0, settled.incidents[0], 600);
    assert 0 !in Due(Settle(db, ps, ns, 600), 600);
  }

  lemma ThirdReading()
    requires Linked(Lasting())
    ensures ApplySnapshot(Lasting(), Third()).Ok?
    ensures var db2 := ApplySnapshot(Lasting(), Third()).value;
      0 in db2.incidents && db2.incidents[0].status == Active && db2.incidents[0].resumptions == 1
  {
    hide ApplyFact, Finish, Lasting, Apart, BackAgain, Create;
    StatesLink();
    ApartLinks();
    TwoFacts();
    Facts(0);
    FirstMoves();
    ApartRows();
    SecondResumes();
    var a, b := Problem("1", "y", 0), Problem("2", "x", 500);
    var mid := Pass(Apart(), {a.identity}, {4}, {3});
    assert {} + {a.identity} == {a.identity} && {} + {4} == {4} && {} + {3} == {3};
    assert ApplyOne(Pass(Lasting(), {}, {}, {}), a, 600) == Ok(mid);
    assert [a, b][1..] == [b] && [b][1..] == [];
    assert ApplyOne(mid, b, 600).Ok?;
    ThirdFinishes(ApplyOne(mid, b, 600).value);
  }

  // ----- The run -----

  /** One resumption, although the incident is active in every committed state from its opening on. */
  lemma ResumedWithinAStep() returns (db2: Db)
    ensures Fresh(Empty()) && Reaches(Empty(), Run(), db2)
    ensures BuiltByAdapter({"zbx"}, ProblemNature("x")) && BuiltByAdapter({"zbx"}, ProblemNature("y"))
    ensures ResumptionsIn(db2, 0) == 1 && Reactivations(Empty(), Run(), 0) == 0
  {
    hide Next, Fallen, Lasting, First, Second, Third, Reaches, Reactivations;
    StatesLink();
    StatusesLast();
    Readings();
    var s1, s2, s3 := Observe(First()), Observe(Second()), Observe(Third());
    var target, connector := AddTarget("host"), SetConnector("zbx", 30);
    db2 := Next(Lasting(), s3);
    Nowhere(db2);
    var last := [s3] + [];
    Ahead(Lasting(), s3, [], db2);
    Ahead(Fallen(), s2, last, db2);
    Ahead(Ready(), s1, [s2] + last, db2);
    Ahead(Added(), connector, [s1] + ([s2] + last), db2);
    Ahead(Empty(), target, [connector] + ([s1] + ([s2] + last)), db2);
    assert Run() == [target] + ([connector] + ([s1] + ([s2] + last)));
  }

  function Added(): Db { Empty().(targets := map["host" := Live]) }

  lemma Readings()
    ensures Linked(Added()) && Linked(Ready()) && Linked(Fallen()) && Linked(Lasting())
    ensures Next(Empty(), AddTarget("host")) == Added() && Next(Added(), SetConnector("zbx", 30)) == Ready()
    ensures Next(Ready(), Observe(First())) == Fallen() && Next(Fallen(), Observe(Second())) == Lasting()
    ensures var db2 := Next(Lasting(), Observe(Third())); ResumptionsIn(db2, 0) == 1 && StatusIn(db2, 0) == Active
  {
    hide ApplySnapshot, Fallen, Lasting, First, Second, Third;
    StatesLink();
    FirstReading();
    SecondReading();
    ThirdReading();
  }

  lemma Nowhere(db: Db)
    ensures Reaches(db, [], db) && Reactivations(db, [], 0) == 0
  {
  }

  /** One step more in front of a run, from a state in which the incident is not resolved. */
  lemma Ahead(db: Db, step: Step, rest: seq<Step>, db2: Db)
    requires Linked(db) && Enabled(db, step) && StatusIn(db, 0) == Active
    requires Reaches(Next(db, step), rest, db2) && Reactivations(Next(db, step), rest, 0) == 0
    ensures Reaches(db, [step] + rest, db2) && Reactivations(db, [step] + rest, 0) == 0
  {
    assert ([step] + rest)[1..] == rest;
  }

  lemma StatusesLast()
    ensures StatusIn(Empty(), 0) == Active && StatusIn(Added(), 0) == Active && StatusIn(Ready(), 0) == Active
    ensures StatusIn(Fallen(), 0) == Active && StatusIn(Lasting(), 0) == Active
  {
  }
}
