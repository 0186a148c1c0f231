/** Two runs of webhook deliveries: one that arrives late, after its source has moved, and two that end on one target. */
module IncidentDeliveries {
  import opened Common
  import opened IncidentModel
  import opened IncidentCycle
  import opened IncidentSnapshot
  import opened IncidentStructure
  import opened IncidentInvariants
  import opened IncidentAggregates
  import opened IncidentIdentities
  import opened IncidentTransactions
  import opened IncidentRuns
  import opened IncidentStoreSteps
  import opened IncidentSequence
  import opened IncidentRivals
  import opened IncidentUniqueness
  import opened IncidentMoves

  // ----- What the adapter sends -----

  function DiskNature(): Nature { ConnectorNature("hook", "disk", "disk") }

  function DiskFull(target: string, binding: string, at: Time): Fact
  {
    Fact(Identity(Webhook, binding, "full"), "hook", binding, "", target, DiskNature(), "Disk full", 2, at, false, 0)
  }

  /** A webhook delivery carries one fact and observes nothing else. */
  function Delivery(target: string, binding: string, at: Time): Snapshot
  {
    Snapshot(Webhook, "hook", true, at, false, {}, [Signal(DiskFull(target, binding, at), true)])
  }

  lemma DeliveredFact(target: string, binding: string, at: Time)
    ensures Prepared(Delivery(target, binding, at)) == [DiskFull(target, binding, at)]
  {
    var f := DiskFull(target, binding, at);
    assert RawFacts(Delivery(target, binding, at)) == [f];
    assert [f][..0] == [];
    assert Sort([]) == [] && Insert(f, []) == [f];
  }

  // ----- The first delivery -----

  /** Two live targets. */
  function Ready(): Db { Empty().(targets := map["o" := Live, "t" := Live]) }

  function OpenIncident(at: Time): Incident
  {
    Incident(DiskNature(), Active, Open, 2, at, at, 60, at + 60, None, None, None, NotApplicable, 1, 1, 1, false, 0, None, 0)
  }

  function Row(i: Id, p: Id, target: string, binding: string, at: Time): Evidence
  {
    Evidence(i, p, target, Identity(Webhook, binding, "full"), "hook", binding, "", true, 2, at, None, false, NotApplicable, None, None)
  }

  function First(): Db
  {
    Ready().(incidents := map[0 := OpenIncident(0)], impacts := map[1 := Impact(0, "o", Active, 2, 0, None)],
             evidence := map[2 := Row(0, 1, "o", "b1", 0)], next := 3)
  }

  lemma Facts(at: Time)
    ensures Complete(DiskFull("o", "b1", at)) && Complete(DiskFull("t", "b2", at)) && DiskNature().eligible
    ensures DiskFull("o", "b1", at).identity != DiskFull("t", "b2", at).identity && "o" != "t"
  {
    assert !IsSpace("o"[0]) && !IsSpace("t"[0]) && !IsSpace("b1"[0]) && !IsSpace("b2"[0]) && !IsSpace("full"[0]);
    assert !IsSpace("disk"[0]) && !IsSpace("Disk full"[0]) && "b1"[1] != "b2"[1] && "o"[0] != "t"[0];
  }

  lemma StatesLink()
    ensures Linked(Empty()) && Linked(Ready()) && Linked(First())
  {
  }

  lemma FirstCreates()
    ensures var o := Create(Ready(), DiskFull("o", "b1", 0), 0);
      o.incident == 0 && o.impact == 1 && Linked(o.db) && AddEvidence(o.db, DiskFull("o", "b1", 0), 0, 1, 0) == First()
  {
    Facts(0);
    var db, f := Ready(), DiskFull("o", "b1", 0);
    assert EvidenceWindow(db, f) == 60;
    var o := Create(db, f, 0);
    assert o.db.incidents == map[0 := OpenIncident(0)];
    assert AddEvidence(o.db, f, 0, 1, 0).evidence == map[2 := Row(0, 1, "o", "b1", 0)];
  }

  lemma FirstApplies()
    requires Linked(Ready())
    ensures ApplyFact(Ready(), DiskFull("o", "b1", 0), 0) == Touched(First(), 0, 1)
  {
    hide Create, AddEvidence, First, Join, Resume;
    Facts(0);
    FirstCreates();
    var db, f := Ready(), DiskFull("o", "b1", 0);
    assert ActiveRow(db.evidence, f.identity).None? && !Suppressed(db.evidence, f.identity);
    assert ActiveImpact(db, f).None? && PropagatingIncident(db, f).None? && ResumableImpact(db, f, 0).None?;
  }

  /** A delivery closes and re-arms nothing: its end only recomputes. */
  lemma DeliveryFinishes(pass: Pass, target: string, binding: string, at: Time)
    ensures Finish(pass, Delivery(target, binding, at)) == AdvanceDue(Settle(pass.db, pass.impacts, pass.incidents, at), at)
  {
    var s := Delivery(target, binding, at);
    assert Gone(pass.db, s, pass.seen) == {} && ImpactsTouching(pass.db, {}) == {} && IncidentsTouching(pass.db, {}) == {};
    NothingRecomputed(pass.db, at);
    assert Rearm(pass.db, s, pass.seen, at).evidence == pass.db.evidence;
    assert pass.impacts + {} == pass.impacts && pass.incidents + {} == pass.incidents;
  }

  lemma DeliveryApplies(db: Db, target: string, binding: string, at: Time, db2: Db, i: Id, p: Id)
    requires Linked(db) && ApplyFact(db, DiskFull(target, binding, at), at) == Touched(db2, i, p)
    ensures ApplySnapshot(db, Delivery(target, binding, at)) == Ok(AdvanceDue(Settle(db2, {p}, {i}, at), at))
  {
    hide ApplyFact, Finish, AdvanceDue, Settle;
    var f := DiskFull(target, binding, at);
    DeliveredFact(target, binding, at);
    assert {} + {p} == {p} && {} + {i} == {i} && [f][1..] == [];
    var start := Pass(db, {}, {}, {});
    assert ApplyOne(start, f, at) == Ok(Pass(db2, {} + {f.identity}, {p}, {i}));
    assert ApplyFacts(start, [f], at) == ApplyOne(start, f, at);
    DeliveryFinishes(Pass(db2, {} + {f.identity}, {p}, {i}), target, binding, at);
  }

  lemma FirstSettles()
    ensures AdvanceDue(Settle(First(), {1}, {0}, 0), 0) == First()
  {
    var db := First();
    assert Sustains(db.evidence[2], 1);
    assert LiveSeverities(db.evidence, 1) == {2};
    assert RecomputeImpacts(db, {1}, 0).impacts == db.impacts;
    assert ActiveOf(db.impacts, 0) == {1} && ImpactsOf(db.impacts, 0) == {1} && ActiveSeverities(db.impacts, 0) == {2};
    FirstTargets();
    assert RecomputeIncidents(db, {0}, 0).incidents == db.incidents;
    assert Due(db, 0) == {};
    assert AdvanceDue(db, 0).incidents == db.incidents;
  }

  lemma FirstTargets()
    ensures LiveTargetCount(First().targets) == 2
  {
    var db := First();
    Facts(0);
    assert (set t | t in db.targets && db.targets[t] == Live) == {"o", "t"};
  }

  lemma FirstDelivery()
    requires Linked(Ready())
    ensures ApplySnapshot(Ready(), Delivery("o", "b1", 0)) == Ok(First())
  {
    hide ApplySnapshot, Ready, First, AdvanceDue, Settle;
    FirstApplies();
    DeliveryApplies(Ready(), "o", "b1", 0, First(), 0, 1);
    FirstSettles();
  }

  // ----- A late delivery -----

  /** Two sources of target "o"; both move to "t", and a delivery routed before the first move is applied after it. */
  function LateRun(): seq<Deed>
  {
    [Do(AddTarget("o")), Do(AddTarget("t")), Install("s1", Seat("o", "b1")), Install("s2", Seat("o", "b2")),
     Move("s1", "o", "t", false, [], 0), Do(Observe(Delivery("o", "b1", 0))), Move("s2", "o", "t", true, [], 60)]
  }

  function Seats(first: string, second: string): map<string, Seat>
  {
    map["s1" := Seat(first, "b1"), "s2" := Seat(second, "b2")]
  }

  /** The target is archived with its evidence active. */
  function Stranded(): Db { First().(targets := map["o" := Archived, "t" := Live]) }

  lemma NothingMoves(db: Db, t: string, source: string, binding: string, now: Time)
    requires t in db.targets && db.targets[t] == Live && forall e :: e in db.evidence ==> !FromSource(db.evidence[e], source, binding)
    ensures Lists([], ImpactsFrom(db.evidence, source, binding)) && ReassignSource(db, t, source, binding, [], now) == Ok(db)
  {
    assert ImpactsFrom(db.evidence, source, binding) == {} && IncidentsFrom(db.evidence, source, binding) == {};
    NothingRecomputed(db, now);
  }

  lemma FirstMove()
    ensures var site := Site(Ready(), Seats("o", "o"));
      Allowed(site, Move("s1", "o", "t", false, [], 0)) &&
      Done(site, Move("s1", "o", "t", false, [], 0)) == Site(Ready(), Seats("t", "o"))
  {
    Names();
    NothingMoves(Ready(), "t", "s1", "b1", 0);
    assert Seats("o", "o")["s1" := Seat("t", "b1")] == Seats("t", "o");
  }

  lemma Names()
    ensures "o" != "t" && "s1" != "s2" && "b1" != "b2"
  {
    assert "s1"[1] != "s2"[1] && "b1"[1] != "b2"[1] && "o"[0] != "t"[0];
  }

  lemma SecondMove()
    ensures var site := Site(First(), Seats("t", "o"));
      Allowed(site, Move("s2", "o", "t", true, [], 60)) &&
      Done(site, Move("s2", "o", "t", true, [], 60)) == Site(Stranded(), Seats("t", "t"))
  {
    Names();
    NothingMoves(First(), "t", "s2", "b2", 60);
    assert Seats("t", "o")["s2" := Seat("t", "b2")] == Seats("t", "t");
    assert SeatedOn(Seats("t", "t"), "o") == {};
    assert First().targets["o" := Archived] == Stranded().targets;
  }

  lemma Starts()
    ensures Linked(Empty()) && Linked(Empty().(targets := map["o" := Live]))
    ensures Next(Empty(), AddTarget("o")) == Empty().(targets := map["o" := Live])
    ensures Enabled(Empty().(targets := map["o" := Live]), AddTarget("t"))
    ensures Next(Empty().(targets := map["o" := Live]), AddTarget("t")) == Ready()
  {
    Names();
    assert map["o" := Live]["t" := Live] == map["o" := Live, "t" := Live];
  }

  lemma OneMore(site: Site, deed: Deed, rest: seq<Deed>, site2: Site)
    requires Allowed(site, deed) && Leads(Done(site, deed), rest, site2)
    ensures Leads(site, [deed] + rest, site2)
  {
    assert ([deed] + rest)[1..] == rest;
  }

  lemma NoMore(site: Site)
    ensures Leads(site, [], site)
  {
  }

  /** The last three deeds. */
  lemma LateEnd()
    ensures var d := LateRun();
      Leads(Site(Ready(), Seats("o", "o")), [d[4]] + ([d[5]] + ([d[6]] + [])), Site(Stranded(), Seats("t", "t")))
  {
    hide Done, Allowed, Stranded, First, Ready, Leads;
    var end, d := Site(Stranded(), Seats("t", "t")), LateRun();
    StatesLink();
    FirstMove();
    FirstDelivery();
    Deliveries();
    SecondMove();
    NoMore(end);
    OneMore(Site(First(), Seats("t", "o")), d[6], [], end);
    OneMore(Site(Ready(), Seats("t", "o")), d[5], [d[6]] + [], end);
    OneMore(Site(Ready(), Seats("o", "o")), d[4], [d[5]] + ([d[6]] + []), end);
  }

  /** The four before them. */
  lemma LateStart(rest: seq<Deed>, end: Site)
    requires Leads(Site(Ready(), Seats("o", "o")), rest, end)
    ensures var d := LateRun(); Leads(Site(Empty(), map[]), [d[0]] + ([d[1]] + ([d[2]] + ([d[3]] + rest))), end)
  {
    hide Done, Allowed, Ready, Leads;
    var d := LateRun();
    StatesLink();
    FirstDelivery();
    Deliveries();
    Installs();
    OneMore(Site(Ready(), map["s1" := Seat("o", "b1")]), d[3], rest, end);
    OneMore(Site(Ready(), map[]), d[2], [d[3]] + rest, end);
    OneMore(Site(Empty().(targets := map["o" := Live]), map[]), d[1], [d[2]] + ([d[3]] + rest), end);
    OneMore(Site(Empty(), map[]), d[0], [d[1]] + ([d[2]] + ([d[3]] + rest)), end);
  }

  /** From nothing, a run ends with active evidence on an archived target. */
  lemma LateDeliveryStrands()
    ensures Leads(Site(Empty(), map[]), LateRun(), Site(Stranded(), Seats("t", "t")))
    ensures 2 in Stranded().evidence && Stranded().evidence[2].active && !IsLive(Stranded().targets, Stranded().evidence[2].target)
    ensures !Inv(Stranded())
  {
    hide Leads, Stranded, Inv;
    var d := LateRun();
    LateEnd();
    LateStart([d[4]] + ([d[5]] + ([d[6]] + [])), Site(Stranded(), Seats("t", "t")));
    assert d == [d[0]] + ([d[1]] + ([d[2]] + ([d[3]] + ([d[4]] + ([d[5]] + ([d[6]] + []))))));
    StrandedRow();
  }

  lemma Installs()
    ensures var site, d := Site(Ready(), map[]), LateRun();
      && Allowed(site, d[2]) && Done(site, d[2]) == Site(Ready(), map["s1" := Seat("o", "b1")])
      && Allowed(Done(site, d[2]), d[3]) && Done(Done(site, d[2]), d[3]) == Site(Ready(), Seats("o", "o"))
  {
    Names();
    assert map["s1" := Seat("o", "b1")]["s2" := Seat("o", "b2")] == Seats("o", "o");
  }

  lemma Deliveries()
    requires Linked(Ready()) && ApplySnapshot(Ready(), Delivery("o", "b1", 0)) == Ok(First())
    ensures var d, added := LateRun(), Site(Empty().(targets := map["o" := Live]), map[]);
      && Allowed(Site(Empty(), map[]), d[0]) && Done(Site(Empty(), map[]), d[0]) == added
      && Allowed(added, d[1]) && Done(added, d[1]) == Site(Ready(), map[])
      && Allowed(Site(Ready(), Seats("t", "o")), d[5]) && Done(Site(Ready(), Seats("t", "o")), d[5]) == Site(First(), Seats("t", "o"))
  {
    hide ApplySnapshot, Ready, First;
    Starts();
  }

  lemma StrandedRow()
    ensures 2 in Stranded().evidence && Stranded().evidence[2].active && !IsLive(Stranded().targets, Stranded().evidence[2].target)
    ensures !Inv(Stranded())
  {
    Names();
  }

  // ----- Two deliveries whose targets are merged -----

  function MergeRun(): seq<Step>
  {
    [AddTarget("o"), AddTarget("t"), Observe(Delivery("o", "b1", 0)), Observe(Delivery("t", "b2", 1000))]
  }

  /** Within the second delivery, before it ends. */
  function Second(): Db
  {
    First().(incidents := map[0 := OpenIncident(0), 3 := OpenIncident(1000)],
             impacts := map[1 := Impact(0, "o", Active, 2, 0, None), 4 := Impact(3, "t", Active, 2, 1000, None)],
             evidence := map[2 := Row(0, 1, "o", "b1", 0), 5 := Row(3, 4, "t", "b2", 1000)], next := 6)
  }

  /** Two incidents of one nature, each on its target. */
  function Both(): Db
  {
    Second().(incidents := map[0 := OpenIncident(0).(propagation := Closed, closedAt := Some(1000)), 3 := OpenIncident(1000)])
  }

  lemma SecondCreates()
    ensures var o := Create(First(), DiskFull("t", "b2", 1000), 1000);
      o.incident == 3 && o.impact == 4 && Linked(o.db) && AddEvidence(o.db, DiskFull("t", "b2", 1000), 3, 4, 1000) == Second()
  {
    Facts(1000);
    var db, f := First(), DiskFull("t", "b2", 1000);
    assert EvidenceWindow(db, f) == 60;
    var o := Create(db, f, 1000);
    assert o.db.incidents == Second().incidents && o.db.impacts == Second().impacts;
    assert AddEvidence(o.db, f, 3, 4, 1000).evidence == Second().evidence;
  }

  /** The window of the first incident is over and nothing has happened on the second target. */
  lemma SecondFindsNothing()
    ensures var db, f := First(), DiskFull("t", "b2", 1000);
      && ActiveRow(db.evidence, f.identity).None? && !Suppressed(db.evidence, f.identity) && IsLive(db.targets, f.target)
      && ActiveImpact(db, f).None? && PropagatingIncident(db, f).None? && ResumableImpact(db, f, 1000).None?
  {
    Facts(1000);
  }

  lemma SecondApplies()
    requires Linked(First())
    ensures ApplyFact(First(), DiskFull("t", "b2", 1000), 1000) == Touched(Second(), 3, 4)
  {
    hide Create, AddEvidence, First, Second, Join, Resume;
    Facts(1000);
    SecondFindsNothing();
    SecondCreates();
  }

  lemma SecondSettles()
    ensures AdvanceDue(Settle(Second(), {4}, {3}, 1000), 1000) == Both()
  {
    hide DiskFull;
    SecondDerived();
    SecondAdvances();
  }

  lemma SecondDerived()
    ensures Settle(Second(), {4}, {3}, 1000) == Second()
  {
    var db := Second();
    assert Sustains(db.evidence[5], 4);
    assert LiveSeverities(db.evidence, 4) == {2};
    assert RecomputeImpacts(db, {4}, 1000).impacts == db.impacts;
    assert ActiveOf(db.impacts, 3) == {4} && ImpactsOf(db.impacts, 3) == {4} && ActiveSeverities(db.impacts, 3) == {2};
    FirstTargets();
    assert RecomputeIncidents(db, {3}, 1000).incidents == db.incidents;
  }

  lemma SecondAdvances()
    ensures AdvanceDue(Second(), 1000) == Both()
  {
    var db := Second();
    assert ActiveOf(db.impacts, 0) == {1} && ImpactsOf(db.impacts, 0) == {1} && ActiveSeverities(db.impacts, 0) == {2};
    FirstTargets();
    assert Due(db, 1000) == {0};
    assert AdvanceDue(db, 1000).incidents == Both().incidents;
  }

  lemma SecondDelivery()
    requires Linked(First())
    ensures ApplySnapshot(First(), Delivery("t", "b2", 1000)) == Ok(Both())
  {
    hide ApplySnapshot, First, Second, Both, AdvanceDue, Settle;
    SecondApplies();
    DeliveryApplies(First(), "t", "b2", 1000, Second(), 3, 4);
    SecondSettles();
  }

  lemma BothIsReached()
    ensures Reaches(Empty(), MergeRun(), Both())
  {
    hide ApplySnapshot, Delivery, First, Both;
    StatesLink();
    Starts();
    FirstDelivery();
    SecondDelivery();
    var s1, s2 := Observe(Delivery("o", "b1", 0)), Observe(Delivery("t", "b2", 1000));
    var added := Empty().(targets := map["o" := Live]);
    var run := MergeRun();
    assert run[1..] == [AddTarget("t"), s1, s2] && run[1..][1..] == [s1, s2] && [s1, s2][1..] == [s2] && [s2][1..] == [];
    assert Reaches(Both(), [], Both());
    assert Reaches(First(), [s2], Both());
    assert Reaches(Ready(), [s1, s2], Both());
    assert Reaches(added, [AddTarget("t"), s1, s2], Both());
  }

  lemma BothIsRegular(keyOf: KeyOf)
    requires CoherentNature(DiskNature(), keyOf)
    ensures Inv(Both()) && Linked(Both()) && OnePerNature(Both())
  {
    hide Both, OnePerNature, Reaches, MergeRun, Regular, Tame, Plain, AlwaysUnique, AlwaysClear;
    BothIsReached();
    MergeRunIsTame(keyOf);
    EmptyIsRegular(keyOf);
    PlainIsClear(Empty(), MergeRun(), Both());
    RunKeeps(Empty(), MergeRun(), Both(), keyOf);
    RegularLinks(Both(), keyOf);
  }

  lemma MergeRunIsTame(keyOf: KeyOf)
    requires CoherentNature(DiskNature(), keyOf)
    ensures Plain(MergeRun()) && forall k :: 0 <= k < |MergeRun()| ==> Tame(MergeRun()[k], keyOf)
  {
    hide Delivery, CoherentNature;
    DeliveredFact("o", "b1", 0);
    DeliveredFact("t", "b2", 1000);
  }

  lemma EmptyIsRegular(keyOf: KeyOf)
    ensures Regular(Empty(), keyOf) && OnePerNature(Empty())
  {
    FreshInv(Empty());
  }

  lemma RegularLinks(db: Db, keyOf: KeyOf)
    requires Regular(db, keyOf)
    ensures Inv(db) && Linked(db)
  {
    PartialLinks(db, {}, {});
  }

  lemma BothAreRivals()
    ensures !MergeClear(Both(), "o", "t") && Lists([4], ImpactsOn(Both().impacts, "t"))
    ensures IsLive(Both().targets, "o") && IsLive(Both().targets, "t") && "o" != "t"
  {
    Names();
    var db := Both();
    assert Rivals(db, 0, 3);
    assert db.impacts[1].target in ActiveTargets(db.impacts, 0) && db.impacts[4].target in ActiveTargets(db.impacts, 3);
    assert ImpactsOn(db.impacts, "t") == {4};
  }

  /** From empty tables, deliveries the adapter does send and a merge end with two active impacts of one nature on one target. */
  lemma MergeBreaksUniqueness(zabbix: set<string>)
    requires "hook" !in zabbix
    ensures Fresh(Empty()) && Reaches(Empty(), MergeRun(), Both()) && BuiltByAdapter(zabbix, DiskNature())
    ensures Linked(Both()) && OnePerNature(Both()) && Enabled(Both(), Merge("o", "t", [4], 2000))
    ensures !OnePerNature(Next(Both(), Merge("o", "t", [4], 2000)))
  {
    hide Both, OnePerNature, Inv, MergeClear, Reaches, Lists;
    BothIsReached();
    AdaptersAreCoherent(zabbix, DiskNature());
    BothIsRegular((scope, namespace, fingerprint) => NatureKey(zabbix, scope, namespace, fingerprint));
    BothAreRivals();
    MergeKeepsExactly(Both(), "o", "t", [4], 2000);
  }
}
