/** Structural corrections conserve evidence and keep the invariant. */
module IncidentStructureProofs {
  import opened Common
  import opened IncidentModel
  import opened IncidentCycle
  import opened IncidentInvariants
  import opened IncidentAggregates
  import opened IncidentIdentities
  import opened IncidentAcknowledgement
  import opened IncidentPlacement
  import opened IncidentTransactions
  import opened IncidentStructure

  /** The row is untouched, or moved inside incident `i` to target `t`. */
  predicate MovedRow(row: Evidence, row2: Evidence, i: Id, t: string)
  {
    row2 == row || (row.incident == i && row2 == row.(impact := row2.impact, target := t))
  }

  /** Evidence of incident `i` moves to target `t`; nothing else about evidence or other incidents changes. */
  ghost predicate Relocated(db: Db, db2: Db, i: Id, t: string)
  {
    && db2 == db.(impacts := db2.impacts, evidence := db2.evidence, next := db2.next)
    && db2.evidence.Keys == db.evidence.Keys
    && (forall e :: e in db.evidence ==> MovedRow(db.evidence[e], db2.evidence[e], i, t))
    && SameImpacts(db.impacts, db2.impacts, {i})
  }

  lemma RelocatedIdentities(db: Db, db2: Db, i: Id, t: string)
    requires Identities(db) && Relocated(db, db2, i, t) && IsLive(db.targets, t)
    ensures Identities(db2)
  {
    forall e | e in db2.evidence ensures MovedRow(db.evidence[e], db2.evidence[e], i, t) {
    }
  }

  lemma RelocatedAck(db: Db, db2: Db, i: Id, t: string, ns: set<Id>)
    requires AckOk(db, ns) && Relocated(db, db2, i, t)
    ensures AckOk(db2, ns)
  {
    assert forall j :: Acknowledged(db2, j) == Acknowledged(db, j);
    forall e | e in db2.evidence
      ensures RowAck(db2.evidence[e], Acknowledged(db2, db2.evidence[e].incident))
      ensures SameRemoteRow(db.evidence[e], db2.evidence[e]) && db2.evidence[e].upstream == db.evidence[e].upstream
    {
      assert MovedRow(db.evidence[e], db2.evidence[e], i, t);
      assert RowAck(db.evidence[e], Acknowledged(db, db.evidence[e].incident));
    }
    SyncAgreesFrame(db, db2, ns, ns);
  }

  // ----- Retargeting a whole impact -----

  lemma RetargetRelocates(db: Db, s: Id, t: string)
    requires Shape(db) && s in db.impacts
    ensures Relocated(db, Retarget(db, s, t), db.impacts[s].incident, t)
  {
  }

  lemma RetargetShape(db: Db, s: Id, t: string)
    requires Shape(db) && s in db.impacts && t in db.targets
    ensures Shape(Retarget(db, s, t))
  {
  }

  lemma RetargetClean(db: Db, s: Id, t: string, ns: set<Id>)
    requires Clean(db, {}, ns) && s in db.impacts && db.impacts[s].incident in ns
    ensures Clean(Retarget(db, s, t), {}, ns)
  {
    var db2 := Retarget(db, s, t);
    assert SameEvidence(db.evidence, db2.evidence, {});
    forall p | p in db2.impacts
      ensures ImpactAgrees(db2.evidence, p, db2.impacts[p])
    {
      ImpactAgreesFrame(db.evidence, db2.evidence, {}, p, db.impacts[p]);
    }
    forall i | i in db2.incidents && i !in ns
      ensures IncidentAgrees(db2.impacts, i, db2.incidents[i])
    {
      IncidentAgreesFrame(db.impacts, db2.impacts, ns, i, db.incidents[i], db2.incidents[i]);
    }
  }

  lemma RetargetPlacement(db: Db, s: Id, t: string)
    requires Placement(db) && s in db.impacts && ImpactOn(db.impacts, db.impacts[s].incident, t).None?
    ensures Placement(Retarget(db, s, t))
  {
    var db2 := Retarget(db, s, t);
    forall i | i in db2.incidents
      ensures exists p :: p in db2.impacts && db2.impacts[p].incident == i
    {
      var p :| p in db.impacts && db.impacts[p].incident == i;
      assert db2.impacts[p].incident == i;
    }
  }

  lemma RetargetPartial(db: Db, s: Id, t: string, ns: set<Id>)
    requires Partial(db, {}, ns) && s in db.impacts && db.impacts[s].incident in ns
    requires IsLive(db.targets, t) && ImpactOn(db.impacts, db.impacts[s].incident, t).None?
    ensures Partial(Retarget(db, s, t), {}, ns)
  {
    RetargetRelocates(db, s, t);
    RetargetShape(db, s, t);
    RetargetClean(db, s, t, ns);
    RelocatedIdentities(db, Retarget(db, s, t), db.impacts[s].incident, t);
    RelocatedAck(db, Retarget(db, s, t), db.impacts[s].incident, t, ns);
    RetargetPlacement(db, s, t);
  }

  // ----- Absorbing an impact -----

  /** `d` is another impact of the incident of `s`, on target `t`. */
  predicate Beside(db: Db, s: Id, d: Id, t: string)
  {
    && s in db.impacts && d in db.impacts && d != s
    && db.impacts[d].incident == db.impacts[s].incident && db.impacts[d].target == t
  }

  lemma AbsorbRelocates(db: Db, s: Id, d: Id, t: string)
    requires Shape(db) && Beside(db, s, d, t)
    ensures Relocated(db, Absorb(db, s, d, t), db.impacts[s].incident, t)
  {
  }

  lemma AbsorbShape(db: Db, s: Id, d: Id, t: string)
    requires Shape(db) && Beside(db, s, d, t)
    ensures Shape(Absorb(db, s, d, t))
  {
  }

  lemma AbsorbPlacement(db: Db, s: Id, d: Id, t: string)
    requires Placement(db) && Beside(db, s, d, t)
    ensures Placement(Absorb(db, s, d, t))
  {
    var db2 := Absorb(db, s, d, t);
    forall i | i in db2.incidents
      ensures exists p :: p in db2.impacts && db2.impacts[p].incident == i
    {
      var p :| p in db.impacts && db.impacts[p].incident == i;
      assert (if p == s then d else p) in db2.impacts && db2.impacts[if p == s then d else p].incident == i;
    }
  }

  lemma AbsorbConfined(db: Db, s: Id, d: Id, t: string, ns: set<Id>)
    requires Beside(db, s, d, t) && db.impacts[s].incident in ns
    ensures Confined(db, Absorb(db, s, d, t), {s, d}, ns)
  {
  }

  lemma AbsorbClean(db: Db, s: Id, d: Id, t: string, ns: set<Id>)
    requires Clean(db, {}, ns) && Beside(db, s, d, t) && db.impacts[s].incident in ns
    ensures Clean(Absorb(db, s, d, t), {s, d}, ns)
  {
    AbsorbConfined(db, s, d, t, ns);
    ConfinedClean(db, Absorb(db, s, d, t), {}, ns, {s, d}, ns);
  }

  lemma AbsorbPartial(db: Db, s: Id, d: Id, t: string, ns: set<Id>, now: Time)
    requires Partial(db, {}, ns) && Beside(db, s, d, t) && db.impacts[s].incident in ns && IsLive(db.targets, t)
    ensures Partial(RecomputeImpacts(Absorb(db, s, d, t), {d}, now), {}, ns)
  {
    var db1 := Absorb(db, s, d, t);
    AbsorbRelocates(db, s, d, t);
    AbsorbShape(db, s, d, t);
    AbsorbClean(db, s, d, t, ns);
    RelocatedIdentities(db, db1, db.impacts[s].incident, t);
    RelocatedAck(db, db1, db.impacts[s].incident, t, ns);
    AbsorbPlacement(db, s, d, t);
    RecomputedPartial(db1, {s, d}, {d}, ns, now);
  }

  /** Recomputing the impacts that remain among `ps` cleans them. */
  lemma RecomputedPartial(db: Db, ps: set<Id>, qs: set<Id>, ns: set<Id>, now: Time)
    requires Partial(db, ps, ns) && qs <= ps && forall p :: p in ps - qs ==> p !in db.impacts
    ensures Partial(RecomputeImpacts(db, qs, now), {}, ns)
  {
    RecomputeImpactsShape(db, qs, now);
    RecomputedClean(db, ps, qs, ns, now);
    RecomputeImpactsAck(db, qs, ns, now);
    RecomputeImpactsPlacement(db, qs, now);
  }

  lemma RecomputedClean(db: Db, ps: set<Id>, qs: set<Id>, ns: set<Id>, now: Time)
    requires Clean(db, ps, ns) && qs <= ps && forall p :: p in ps - qs ==> p !in db.impacts
    ensures Clean(RecomputeImpacts(db, qs, now), {}, ns)
  {
    RecomputeImpactsClean(db, qs, ps, ns, now);
    CleanPresent(RecomputeImpacts(db, qs, now), ps - qs, ns);
  }

  lemma RecomputeImpactsPlacement(db: Db, qs: set<Id>, now: Time)
    requires Placement(db)
    ensures Placement(RecomputeImpacts(db, qs, now))
  {
    SamePlacesKeep(db, RecomputeImpacts(db, qs, now));
  }

  lemma RecomputeImpactsAck(db: Db, qs: set<Id>, ns: set<Id>, now: Time)
    requires AckOk(db, ns)
    ensures AckOk(RecomputeImpacts(db, qs, now), ns)
  {
  }

  lemma CleanPresent(db: Db, ps: set<Id>, ns: set<Id>)
    requires Clean(db, ps, ns) && forall p :: p in ps ==> p !in db.impacts
    ensures Clean(db, {}, ns)
  {
  }

  // ----- Splitting an impact -----

  lemma DetachRelocates(db: Db, es: set<Id>, s: Id, d: Id, t: string)
    requires Shape(db) && Beside(db, s, d, t) && forall e :: e in es ==> e in db.evidence && db.evidence[e].impact == s
    ensures Relocated(db, Detach(db, es, d, t), db.impacts[s].incident, t)
  {
  }

  lemma DetachShape(db: Db, es: set<Id>, s: Id, d: Id, t: string)
    requires Shape(db) && Beside(db, s, d, t) && forall e :: e in es ==> e in db.evidence && db.evidence[e].impact == s
    ensures Shape(Detach(db, es, d, t))
  {
  }

  lemma DetachClean(db: Db, es: set<Id>, s: Id, d: Id, t: string, ps: set<Id>, ns: set<Id>)
    requires Clean(db, ps, ns) && Beside(db, s, d, t) && db.impacts[s].incident in ns && ps <= {s, d}
    requires forall e :: e in es ==> e in db.evidence && db.evidence[e].impact == s
    ensures Clean(Detach(db, es, d, t), {s, d}, ns)
  {
    assert Confined(db, Detach(db, es, d, t), {s, d}, ns);
    ConfinedClean(db, Detach(db, es, d, t), ps, ns, {s, d}, ns);
  }

  lemma DetachPartial(db: Db, es: set<Id>, s: Id, d: Id, t: string, ps: set<Id>, ns: set<Id>, now: Time)
    requires Partial(db, ps, ns) && Beside(db, s, d, t) && db.impacts[s].incident in ns && IsLive(db.targets, t)
    requires ps <= {s, d} && forall e :: e in es ==> e in db.evidence && db.evidence[e].impact == s
    ensures Partial(RecomputeImpacts(Detach(db, es, d, t), {s, d}, now), {}, ns)
  {
    var db1 := Detach(db, es, d, t);
    DetachRelocates(db, es, s, d, t);
    DetachShape(db, es, s, d, t);
    DetachClean(db, es, s, d, t, ps, ns);
    RelocatedIdentities(db, db1, db.impacts[s].incident, t);
    RelocatedAck(db, db1, db.impacts[s].incident, t, ns);
    SamePlacesKeep(db, db1);
    RecomputedPartial(db1, {s, d}, {s, d}, ns, now);
  }

  lemma WithImpactPlacement(db: Db, row: Impact)
    requires Shape(db) && Placement(db) && ImpactOn(db.impacts, row.incident, row.target).None?
    ensures Placement(WithImpact(db, row))
  {
    hide ImpactRow, IncidentRow, EvidenceRow;
    var db2 := WithImpact(db, row);
    forall i | i in db2.incidents
      ensures exists p :: p in db2.impacts && db2.impacts[p].incident == i
    {
      var p :| p in db.impacts && db.impacts[p].incident == i;
      assert db2.impacts[p].incident == i;
    }
  }

  lemma WithImpactShape(db: Db, row: Impact)
    requires Shape(db) && ImpactRow(row) && row.incident in db.incidents && row.target in db.targets
    ensures Shape(WithImpact(db, row))
  {
  }

  lemma WithImpactConfined(db: Db, row: Impact, ns: set<Id>)
    requires Shape(db) && row.incident in ns
    ensures Confined(db, WithImpact(db, row), {db.next}, ns)
  {
    assert SameEvidence(db.evidence, WithImpact(db, row).evidence, {db.next});
  }

  lemma WithImpactClean(db: Db, row: Impact, ns: set<Id>)
    requires Shape(db) && Clean(db, {}, ns) && row.incident in ns
    ensures Clean(WithImpact(db, row), {db.next}, ns)
  {
    WithImpactConfined(db, row, ns);
    ConfinedClean(db, WithImpact(db, row), {}, ns, {db.next}, ns);
  }

  lemma WithImpactPartial(db: Db, row: Impact, ns: set<Id>)
    requires Partial(db, {}, ns) && ImpactRow(row) && row.incident in db.incidents && row.incident in ns
    requires row.target in db.targets && ImpactOn(db.impacts, row.incident, row.target).None?
    ensures Partial(WithImpact(db, row), {db.next}, ns)
  {
    WithImpactShape(db, row);
    WithImpactClean(db, row, ns);
    WithImpactPlacement(db, row);
    WithImpactAck(db, row, ns);
  }

  lemma WithImpactAck(db: Db, row: Impact, ns: set<Id>)
    requires AckOk(db, ns)
    ensures AckOk(WithImpact(db, row), ns)
  {
  }

  // ----- Merging targets -----

  lemma MergeOnePartial(db: Db, s: Id, primary: string, ns: set<Id>, now: Time)
    requires Partial(db, {}, ns) && s in db.impacts && db.impacts[s].incident in ns && db.impacts[s].target != primary
    requires IsLive(db.targets, primary)
    ensures Partial(MergeOne(db, s, primary, now), {}, ns)
  {
    match ImpactOn(db.impacts, db.impacts[s].incident, primary)
    case None => RetargetPartial(db, s, primary, ns);
    case Some(d) => AbsorbPartial(db, s, d, primary, ns, now);
  }

  lemma ReassignOnePartial(db: Db, s: Id, t: string, source: string, binding: string, ns: set<Id>, now: Time)
    requires Partial(db, {}, ns) && s in db.impacts && db.impacts[s].incident in ns && IsLive(db.targets, t)
    ensures Partial(ReassignOne(db, s, t, source, binding, now), {}, ns)
  {
    hide RecomputeImpacts, Absorb, Detach, SplitImpact, ImpactAgrees, IncidentAgrees, AckOk, Placement, Identities;
    var es := Selected(db.evidence, s, source, binding);
    var i := db.impacts[s].incident;
    match ImpactOn(db.impacts, i, t)
    case Some(d) =>
      if d == s {
        CleanWider(db, {}, {s}, ns);
        RecomputedPartial(db, {s}, {s}, ns, now);
      } else if es == EvidenceOf(db.evidence, s) {
        AbsorbPartial(db, s, d, t, ns, now);
      } else {
        DetachPartial(db, es, s, d, t, {}, ns, now);
      }
    case None =>
      if es == EvidenceOf(db.evidence, s) {
        RetargetPartial(db, s, t, ns);
        var db1 := Retarget(db, s, t);
        CleanWider(db1, {}, {s}, ns);
        RecomputedPartial(db1, {s}, {s}, ns, now);
      } else {
        SplitPartial(db, es, s, t, ns, now);
      }
  }

  lemma SplitPartial(db: Db, es: set<Id>, s: Id, t: string, ns: set<Id>, now: Time)
    requires Partial(db, {}, ns) && s in db.impacts && db.impacts[s].incident in ns && IsLive(db.targets, t)
    requires ImpactOn(db.impacts, db.impacts[s].incident, t).None?
    requires forall e :: e in es ==> e in db.evidence && db.evidence[e].impact == s
    ensures Partial(RecomputeImpacts(
      Detach(WithImpact(db, SplitImpact(db.evidence, es, db.impacts[s].incident, t, now)), es, db.next, t), {s, db.next}, now), {}, ns)
  {
    hide RecomputeImpacts, Detach, ImpactAgrees, IncidentAgrees, AckOk, Placement, Identities, Sustains;
    var row := SplitImpact(db.evidence, es, db.impacts[s].incident, t, now);
    WithImpactPartial(db, row, ns);
    DetachPartial(WithImpact(db, row), es, s, db.next, t, {db.next}, ns, now);
  }

  /** Every row survives with its incident and everything else but its place, which moves from `from` to `to` or stays. */
  ghost predicate Conserved(evidence: map<Id, Evidence>, evidence2: map<Id, Evidence>)
  {
    && evidence2.Keys == evidence.Keys
    && forall e :: e in evidence ==>
      evidence2[e] == evidence[e].(impact := evidence2[e].impact, target := evidence2[e].target)
  }

  /** What one merged impact changes. */
  lemma MergeOneEffect(db: Db, s: Id, primary: string, now: Time)
    requires Shape(db) && s in db.impacts && db.impacts[s].target != primary
    ensures var db2 := MergeOne(db, s, primary, now);
      && Conserved(db.evidence, db2.evidence) && db2.targets == db.targets && db2.incidents == db.incidents
      && MovedFrom(db.evidence, db2.evidence, s, primary) && RetargetedAt(db.impacts, db2.impacts, s, primary)
  {
    hide ImpactRow, IncidentRow, EvidenceRow;
    match ImpactOn(db.impacts, db.impacts[s].incident, primary)
    case None => RelocateRows(db.evidence, EvidenceOf(db.evidence, s), s, primary);
    case Some(d) =>
      RelocateRows(db.evidence, EvidenceOf(db.evidence, s), d, primary);
      RecomputeKeepsPlaces(Absorb(db, s, d, primary), {d}, now);
  }

  /** The evidence of impact `s` is now on target `t`. */
  ghost predicate MovedFrom(evidence: map<Id, Evidence>, evidence2: map<Id, Evidence>, s: Id, t: string)
  {
    forall e :: e in evidence && e in evidence2 ==>
      evidence2[e].target == (if evidence[e].impact == s then t else evidence[e].target)
  }

  /** Only impact `s` may change target, to `t`. */
  ghost predicate RetargetedAt(impacts: map<Id, Impact>, impacts2: map<Id, Impact>, s: Id, t: string)
  {
    forall p :: p in impacts2 ==>
      && p in impacts && impacts2[p].incident == impacts[p].incident
      && impacts2[p].target == (if p == s then t else impacts[p].target)
  }

  lemma RecomputeKeepsPlaces(db: Db, qs: set<Id>, now: Time)
    ensures var db2 := RecomputeImpacts(db, qs, now);
      && db2.impacts.Keys == db.impacts.Keys
      && forall p :: p in db.impacts ==> db2.impacts[p].incident == db.impacts[p].incident && db2.impacts[p].target == db.impacts[p].target
  {
  }

  lemma ConservedTransitive(a: map<Id, Evidence>, b: map<Id, Evidence>, c: map<Id, Evidence>)
    requires Conserved(a, b) && Conserved(b, c)
    ensures Conserved(a, c)
  {
    forall e | e in a
      ensures c[e] == a[e].(impact := c[e].impact, target := c[e].target)
    {
      assert b[e] == a[e].(impact := b[e].impact, target := b[e].target);
      assert c[e] == b[e].(impact := c[e].impact, target := c[e].target);
    }
  }

  /** The impacts still to be merged carry the absorbed target, in incidents that will be recomputed. */
  ghost predicate Awaiting(impacts: map<Id, Impact>, order: seq<Id>, secondary: string, ns: set<Id>)
  {
    && (forall k, l :: 0 <= k < l < |order| ==> order[k] != order[l])
    && (forall k :: 0 <= k < |order| && order[k] in impacts ==>
          impacts[order[k]].target == secondary && impacts[order[k]].incident in ns)
    && (forall p :: p in impacts && impacts[p].target == secondary ==> p in order)
  }

  lemma {:induction false} MergeAllOk(db: Db, order: seq<Id>, primary: string, secondary: string, ns: set<Id>,
      now: Time)
    requires Partial(db, {}, ns) && IsLive(db.targets, primary) && primary != secondary
    requires Awaiting(db.impacts, order, secondary, ns)
    ensures var db2 := MergeAll(db, order, primary, now);
      && Partial(db2, {}, ns) && db2.targets == db.targets && db2.incidents == db.incidents
      && Conserved(db.evidence, db2.evidence)
      && MaybeRenamed(db.evidence, db2.evidence, primary, secondary)
      && (forall p :: p in db2.impacts ==> db2.impacts[p].target != secondary)
    decreases |order|
  {
    if order != [] {
      var s, rest := order[0], order[1..];
      if s in db.impacts {
        var db1 := MergeOne(db, s, primary, now);
        MergeOnePartial(db, s, primary, ns, now);
        MergeOneEffect(db, s, primary, now);
        AwaitingStep(db.impacts, db1.impacts, order, primary, secondary, ns);
        MergeAllOk(db1, rest, primary, secondary, ns, now);
        ConservedTransitive(db.evidence, db1.evidence, MergeAll(db1, rest, primary, now).evidence);
        MergedTargets(db, db1.evidence, MergeAll(db1, rest, primary, now).evidence, s, primary, secondary);
      } else {
        AwaitingSkip(db.impacts, order, secondary, ns);
        MergeAllOk(db, rest, primary, secondary, ns, now);
      }
    }
  }

  function Renamed(t: string, primary: string, secondary: string): string
  {
    if t == secondary then primary else t
  }

  /** Rows of the absorbed target may have moved to the kept one. */
  ghost predicate MaybeRenamed(evidence: map<Id, Evidence>, evidence2: map<Id, Evidence>, primary: string,
      secondary: string)
  {
    forall e :: e in evidence && e in evidence2 ==>
      evidence2[e].target in {evidence[e].target, Renamed(evidence[e].target, primary, secondary)}
  }

  lemma MergedTargets(db: Db, evidence1: map<Id, Evidence>, evidence2: map<Id, Evidence>, s: Id, primary: string,
      secondary: string)
    requires Shape(db) && s in db.impacts && db.impacts[s].target == secondary && primary != secondary
    requires evidence1.Keys == db.evidence.Keys && evidence2.Keys == db.evidence.Keys
    requires MovedFrom(db.evidence, evidence1, s, primary) && MaybeRenamed(evidence1, evidence2, primary, secondary)
    ensures MaybeRenamed(db.evidence, evidence2, primary, secondary)
  {
    forall e | e in db.evidence
      ensures evidence2[e].target in {db.evidence[e].target, Renamed(db.evidence[e].target, primary, secondary)}
    {
      assert db.impacts[db.evidence[e].impact].target == db.evidence[e].target;
    }
  }

  lemma AwaitingSkip(impacts: map<Id, Impact>, order: seq<Id>, secondary: string, ns: set<Id>)
    requires Awaiting(impacts, order, secondary, ns) && |order| > 0 && order[0] !in impacts
    ensures Awaiting(impacts, order[1..], secondary, ns)
  {
    var rest := order[1..];
    assert order == [order[0]] + rest;
    assert forall k :: 0 <= k < |rest| ==> rest[k] == order[k + 1];
  }

  lemma AwaitingStep(impacts: map<Id, Impact>, impacts2: map<Id, Impact>, order: seq<Id>, primary: string,
      secondary: string, ns: set<Id>)
    requires Awaiting(impacts, order, secondary, ns) && |order| > 0 && primary != secondary
    requires RetargetedAt(impacts, impacts2, order[0], primary)
    ensures Awaiting(impacts2, order[1..], secondary, ns)
  {
    var rest := order[1..];
    assert order == [order[0]] + rest;
    assert forall k :: 0 <= k < |rest| ==> rest[k] == order[k + 1];
  }

  lemma MergeTargetsInv(db: Db, primary: string, secondary: string, order: seq<Id>, now: Time)
    requires Inv(db) && Lists(order, ImpactsOn(db.impacts, secondary))
    ensures MergeTargets(db, primary, secondary, order, now).Ok? ==>
      Inv(MergeTargets(db, primary, secondary, order, now).value)
  {
    if MergeTargets(db, primary, secondary, order, now).Ok? {
      var ns := IncidentsOn(db.impacts, secondary);
      MergeStart(db, secondary, order, ns);
      var merged := MergeAll(db, order, primary, now);
      MergeAllOk(db, order, primary, secondary, ns, now);
      RecomputedInv(merged, ns, now);
      var settled := RecomputeIncidents(merged, ns, now);
      AbsorbedOutside(settled, secondary);
      OutsidePartial(settled, settled.(targets := settled.targets[secondary := Absorbed]), {}, {});
    }
  }

  lemma MergeStart(db: Db, secondary: string, order: seq<Id>, ns: set<Id>)
    requires Inv(db) && Lists(order, ImpactsOn(db.impacts, secondary)) && ns == IncidentsOn(db.impacts, secondary)
    ensures Partial(db, {}, ns) && Awaiting(db.impacts, order, secondary, ns)
  {
    PartialWider(db, ns);
    forall k | 0 <= k < |order|
      ensures db.impacts[order[k]].incident in ns
    {
      assert order[k] in ImpactsOn(db.impacts, secondary);
    }
    assert forall p :: p in db.impacts && db.impacts[p].target == secondary ==> p in ImpactsOn(db.impacts, secondary);
  }

  lemma PartialWider(db: Db, ns: set<Id>)
    requires Inv(db)
    ensures Partial(db, {}, ns)
  {
    SyncAgreesWider(db, {}, ns);
  }

  lemma RecomputedInv(db: Db, ns: set<Id>, now: Time)
    requires Partial(db, {}, ns)
    ensures Inv(RecomputeIncidents(db, ns, now))
  {
    RecomputeIncidentsShape(db, ns, now);
    RecomputeIncidentsClean(db, ns, {}, ns, {}, now);
    RecomputeIncidentsAck(db, ns, ns, now);
    assert ns - ns == {};
    RecomputeIncidentsPlacement(db, ns, now);
  }

  lemma RecomputeIncidentsPlacement(db: Db, ns: set<Id>, now: Time)
    requires Placement(db)
    ensures Placement(RecomputeIncidents(db, ns, now))
  {
    SamePlacesKeep(db, RecomputeIncidents(db, ns, now));
  }

  lemma AbsorbedOutside(db: Db, secondary: string)
    requires Shape(db) && OnLive(db.targets, db.evidence) && forall p :: p in db.impacts ==> db.impacts[p].target != secondary
    ensures Outside(db, db.(targets := db.targets[secondary := Absorbed]))
  {
    forall e | e in db.evidence && db.evidence[e].active
      ensures IsLive(db.targets[secondary := Absorbed], db.evidence[e].target)
    {
      assert db.impacts[db.evidence[e].impact].target == db.evidence[e].target;
    }
  }

  // ----- What a merge means -----

  /** Live evidence of an incident on a target. */
  predicate LiveOn(row: Evidence, i: Id, t: string)
  {
    row.incident == i && row.target == t && row.active && row.invalidatedAt.None?
  }

  /** In a clean state the active targets of an incident are those of its live evidence. */
  lemma ActiveTargetFromEvidence(db: Db, i: Id, e: Id)
    requires Shape(db) && Clean(db, {}, {}) && e in db.evidence && LiveOn(db.evidence[e], i, db.evidence[e].target)
    ensures db.evidence[e].target in ActiveTargets(db.impacts, i)
  {
    hide IncidentAgrees, IncidentRow, ImpactRow;
    var p := db.evidence[e].impact;
    assert Sustains(db.evidence[e], p);
    assert ImpactAgrees(db.evidence, p, db.impacts[p]);
    assert db.impacts[p].status == Active;
  }

  lemma EvidenceOfActiveTarget(db: Db, i: Id, t: string) returns (e: Id)
    requires Shape(db) && Clean(db, {}, {}) && t in ActiveTargets(db.impacts, i)
    ensures e in db.evidence && LiveOn(db.evidence[e], i, t)
  {
    hide IncidentAgrees, IncidentRow, ImpactRow;
    var p :| p in db.impacts && db.impacts[p].incident == i && db.impacts[p].status == Active && db.impacts[p].target == t;
    assert ImpactAgrees(db.evidence, p, db.impacts[p]);
    e :| e in db.evidence && Sustains(db.evidence[e], p);
  }

  /** The active targets of every incident are the old ones with the absorbed target renamed. */
  lemma ActiveTargetsRenamed(db: Db, db2: Db, primary: string, secondary: string, i: Id)
    requires Shape(db) && Clean(db, {}, {}) && Shape(db2) && Clean(db2, {}, {}) && Conserved(db.evidence, db2.evidence)
    requires forall e :: e in db.evidence ==> db2.evidence[e].target == Renamed(db.evidence[e].target, primary, secondary)
    ensures ActiveTargets(db2.impacts, i) == set t | t in ActiveTargets(db.impacts, i) :: Renamed(t, primary, secondary)
  {
    var renamed := set t | t in ActiveTargets(db.impacts, i) :: Renamed(t, primary, secondary);
    forall t | t in renamed
      ensures t in ActiveTargets(db2.impacts, i)
    {
      var u :| u in ActiveTargets(db.impacts, i) && t == Renamed(u, primary, secondary);
      var e := EvidenceOfActiveTarget(db, i, u);
      ConservedRow(db.evidence, db2.evidence, e);
      ActiveTargetFromEvidence(db2, i, e);
    }
    forall t | t in ActiveTargets(db2.impacts, i)
      ensures t in renamed
    {
      var e := EvidenceOfActiveTarget(db2, i, t);
      ConservedRow(db.evidence, db2.evidence, e);
      ActiveTargetFromEvidence(db, i, e);
    }
  }

  lemma ConservedRow(evidence: map<Id, Evidence>, evidence2: map<Id, Evidence>, e: Id)
    requires Conserved(evidence, evidence2) && e in evidence
    ensures evidence2[e].incident == evidence[e].incident && evidence2[e].active == evidence[e].active
    ensures evidence2[e].invalidatedAt == evidence[e].invalidatedAt
  {
  }

  /** A merge conserves every evidence row and its incident, renames the absorbed target and leaves it nowhere. */
  lemma MergeTargetsMeaning(db: Db, primary: string, secondary: string, order: seq<Id>, now: Time)
    requires Inv(db) && Lists(order, ImpactsOn(db.impacts, secondary))
    requires MergeTargets(db, primary, secondary, order, now).Ok?
    ensures var db2 := MergeTargets(db, primary, secondary, order, now).value;
      && Inv(db2) && Conserved(db.evidence, db2.evidence)
      && (forall e :: e in db.evidence ==> db2.evidence[e].target == Renamed(db.evidence[e].target, primary, secondary))
      && (forall p :: p in db2.impacts ==> db2.impacts[p].target != secondary)
      && (forall i :: ActiveTargets(db2.impacts, i) ==
            set t | t in ActiveTargets(db.impacts, i) :: Renamed(t, primary, secondary))
  {
    MergeTargetsInv(db, primary, secondary, order, now);
    var db2 := MergeTargets(db, primary, secondary, order, now).value;
    MergeTargetsRows(db, primary, secondary, order, now);
    forall i
      ensures ActiveTargets(db2.impacts, i) == set t | t in ActiveTargets(db.impacts, i) :: Renamed(t, primary, secondary)
    {
      ActiveTargetsRenamed(db, db2, primary, secondary, i);
    }
  }

  lemma MergeTargetsRows(db: Db, primary: string, secondary: string, order: seq<Id>, now: Time)
    requires Inv(db) && Lists(order, ImpactsOn(db.impacts, secondary))
    requires MergeTargets(db, primary, secondary, order, now).Ok?
    ensures var db2 := MergeTargets(db, primary, secondary, order, now).value;
      && Conserved(db.evidence, db2.evidence)
      && (forall p :: p in db2.impacts ==> db2.impacts[p].target != secondary)
      && (forall e :: e in db.evidence ==> db2.evidence[e].target == Renamed(db.evidence[e].target, primary, secondary))
  {
    hide AckOk, Identities, Placement, ImpactAgrees, IncidentAgrees, MergeAll;
    var ns := IncidentsOn(db.impacts, secondary);
    MergeStart(db, secondary, order, ns);
    MergeAllOk(db, order, primary, secondary, ns, now);
    FullyRenamed(db.evidence, MergeAll(db, order, primary, now), primary, secondary);
  }

  lemma FullyRenamed(evidence: map<Id, Evidence>, db2: Db, primary: string, secondary: string)
    requires Shape(db2) && db2.evidence.Keys == evidence.Keys && MaybeRenamed(evidence, db2.evidence, primary, secondary)
    requires forall p :: p in db2.impacts ==> db2.impacts[p].target != secondary
    ensures forall e :: e in evidence ==> db2.evidence[e].target == Renamed(evidence[e].target, primary, secondary)
  {
    hide IncidentRow, ImpactRow, EvidenceRow;
    forall e | e in evidence
      ensures db2.evidence[e].target == Renamed(evidence[e].target, primary, secondary)
    {
      assert db2.impacts[db2.evidence[e].impact].target == db2.evidence[e].target;
    }
  }

  // ----- Moving a source -----

  /** A split impact spans its evidence: from the first opening, to the last resolution if none is live. */
  lemma SplitImpactSpans(evidence: map<Id, Evidence>, es: set<Id>, i: Id, t: string, now: Time, e: Id)
    requires e in es && e in evidence
    ensures var row := SplitImpact(evidence, es, i, t, now);
      && row.openedAt <= evidence[e].openedAt && row.severity >= evidence[e].severity
      && (row.resolvedAt.None? <== evidence[e].active && evidence[e].invalidatedAt.None?)
      && (row.resolvedAt.Some? && evidence[e].resolvedAt.Some? ==> evidence[e].resolvedAt.value <= row.resolvedAt.value)
      // each bound is that of one of the rows
      && (exists x :: x in es && x in evidence && evidence[x].openedAt == row.openedAt)
      && (exists x :: x in es && x in evidence && evidence[x].severity == row.severity)
      && (row.resolvedAt.None? ==> exists x :: x in es && x in evidence && evidence[x].active && evidence[x].invalidatedAt.None?)
      && (row.resolvedAt.Some? && evidence[e].resolvedAt.Some? ==>
            exists x :: x in es && x in evidence && evidence[x].resolvedAt == row.resolvedAt)
  {
    var severities := Severities(evidence, es);
    assert evidence[e].severity in severities;
    TopIsGreatest(severities);
    assert exists x :: x in es && x in evidence && evidence[x].severity == Top(severities);
    assert e in Openings(evidence, es);
    if evidence[e].resolvedAt.Some? {
      assert e in Resolutions(evidence, es);
    }
  }

  lemma RelocateRows(evidence: map<Id, Evidence>, es: set<Id>, d: Id, t: string)
    ensures Conserved(evidence, Relocate(evidence, es, d, t))
    ensures forall e :: e in evidence ==>
      if e in es then Relocate(evidence, es, d, t)[e].target == t else Relocate(evidence, es, d, t)[e] == evidence[e]
  {
  }

  lemma ReassignOneEvidence(db: Db, s: Id, t: string, source: string, binding: string, now: Time) returns (d: Id)
    requires Shape(db) && s in db.impacts
    ensures var db2 := ReassignOne(db, s, t, source, binding, now);
      && db2.targets == db.targets && db2.incidents == db.incidents
      && (db2.evidence == Relocate(db.evidence, Selected(db.evidence, s, source, binding), d, t) ||
          (db2.evidence == db.evidence && db.impacts[s].target == t))
      && (d in {s, db.next} || (d in db.impacts && db.impacts[d].target == t))
  {
    hide SplitImpact, DerivedImpact, ImpactRow, IncidentRow, EvidenceRow, FromSource;
    d := match ImpactOn(db.impacts, db.impacts[s].incident, t)
      case Some(d) => d
      case None => if Selected(db.evidence, s, source, binding) == EvidenceOf(db.evidence, s) then s else db.next;
  }

  lemma ReassignOneEffect(db: Db, s: Id, t: string, source: string, binding: string, now: Time)
    requires Shape(db) && s in db.impacts
    ensures var db2 := ReassignOne(db, s, t, source, binding, now);
      && Conserved(db.evidence, db2.evidence) && db2.targets == db.targets && db2.incidents == db.incidents
      && (forall e :: e in db.evidence ==>
            if e in Selected(db.evidence, s, source, binding) then db2.evidence[e].target == t
            else db2.evidence[e] == db.evidence[e])
  {
    var d := ReassignOneEvidence(db, s, t, source, binding, now);
    RelocateRows(db.evidence, Selected(db.evidence, s, source, binding), d, t);
    RelocateRows(db.evidence, {}, d, t);
  }

  /** Evidence of the source still to be moved lies on the impacts still to be visited. */
  ghost predicate Remaining(db: Db, order: seq<Id>, t: string, source: string, binding: string, ns: set<Id>)
  {
    && (forall k :: 0 <= k < |order| && order[k] in db.impacts ==> db.impacts[order[k]].incident in ns)
    && (forall e :: e in db.evidence && FromSource(db.evidence[e], source, binding) ==>
          db.evidence[e].target == t || db.evidence[e].impact in order)
    && (forall k :: 0 <= k < |order| ==> order[k] < db.next)
  }

  lemma {:induction false} ReassignAllOk(db: Db, order: seq<Id>, t: string, source: string, binding: string,
      ns: set<Id>, now: Time)
    requires Partial(db, {}, ns) && IsLive(db.targets, t) && Remaining(db, order, t, source, binding, ns)
    ensures var db2 := ReassignAll(db, order, t, source, binding, now);
      && Partial(db2, {}, ns) && db2.targets == db.targets && db2.incidents == db.incidents
      && Conserved(db.evidence, db2.evidence)
      && (forall e :: e in db.evidence ==>
            if FromSource(db.evidence[e], source, binding) then db2.evidence[e].target == t
            else db2.evidence[e] == db.evidence[e])
    decreases |order|
  {
    if order != [] {
      var s, rest := order[0], order[1..];
      if s in db.impacts {
        var db1 := ReassignOne(db, s, t, source, binding, now);
        ReassignOnePartial(db, s, t, source, binding, ns, now);
        ReassignOneEffect(db, s, t, source, binding, now);
        RemainingStep(db, order, t, source, binding, ns, now);
        ReassignAllOk(db1, rest, t, source, binding, ns, now);
        ConservedTransitive(db.evidence, db1.evidence, ReassignAll(db1, rest, t, source, binding, now).evidence);
        ReassignedRows(db.evidence, db1.evidence, ReassignAll(db1, rest, t, source, binding, now).evidence, s, t, source, binding);
      } else {
        RemainingSkip(db, order, t, source, binding, ns);
        ReassignAllOk(db, rest, t, source, binding, ns, now);
      }
    } else {
      assert forall e :: e in db.evidence && FromSource(db.evidence[e], source, binding) ==> db.evidence[e].target == t;
    }
  }

  lemma ReassignedRows(a: map<Id, Evidence>, b: map<Id, Evidence>, c: map<Id, Evidence>, s: Id, t: string,
      source: string, binding: string)
    requires Conserved(a, b) && Conserved(b, c)
    requires forall e :: e in a ==> if e in Selected(a, s, source, binding) then b[e].target == t else b[e] == a[e]
    requires forall e :: e in b ==> if FromSource(b[e], source, binding) then c[e].target == t else c[e] == b[e]
    ensures forall e :: e in a ==> if FromSource(a[e], source, binding) then c[e].target == t else c[e] == a[e]
  {
    forall e | e in a
      ensures if FromSource(a[e], source, binding) then c[e].target == t else c[e] == a[e]
    {
      assert b[e] == a[e].(impact := b[e].impact, target := b[e].target);
      assert FromSource(b[e], source, binding) == FromSource(a[e], source, binding);
    }
  }

  lemma RemainingStep(db: Db, order: seq<Id>, t: string, source: string, binding: string, ns: set<Id>, now: Time)
    requires Shape(db) && Remaining(db, order, t, source, binding, ns) && |order| > 0 && order[0] in db.impacts
    ensures Remaining(ReassignOne(db, order[0], t, source, binding, now), order[1..], t, source, binding, ns)
  {
    var s, rest := order[0], order[1..];
    var db1 := ReassignOne(db, s, t, source, binding, now);
    ReassignOneEffect(db, s, t, source, binding, now);
    ReassignOneImpacts(db, s, t, source, binding, now);
    assert forall k :: 0 <= k < |rest| ==> rest[k] == order[k + 1];
    forall e | e in db1.evidence && FromSource(db1.evidence[e], source, binding)
      ensures db1.evidence[e].target == t || db1.evidence[e].impact in rest
    {
      assert db1.evidence[e] == db.evidence[e].(impact := db1.evidence[e].impact, target := db1.evidence[e].target);
      if e !in Selected(db.evidence, s, source, binding) && db.evidence[e].target != t {
        assert db.evidence[e].impact in order && db.evidence[e].impact != s;
        var k :| 0 <= k < |order| && order[k] == db.evidence[e].impact;
        assert rest[k - 1] == db.evidence[e].impact;
      }
    }
  }

  /** Impacts older than `n` keep their incident. */
  ghost predicate KeepsIncidents(impacts: map<Id, Impact>, impacts2: map<Id, Impact>, n: Id)
  {
    forall p :: p in impacts2 && p < n ==> p in impacts && impacts2[p].incident == impacts[p].incident
  }

  lemma RecomputeKeepsIncidents(impacts: map<Id, Impact>, db: Db, qs: set<Id>, n: Id, now: Time)
    requires KeepsIncidents(impacts, db.impacts, n)
    ensures KeepsIncidents(impacts, RecomputeImpacts(db, qs, now).impacts, n)
    ensures RecomputeImpacts(db, qs, now).next == db.next
  {
  }

  lemma ReassignOneImpacts(db: Db, s: Id, t: string, source: string, binding: string, now: Time)
    requires Shape(db) && s in db.impacts
    ensures var db1 := ReassignOne(db, s, t, source, binding, now);
      db.next <= db1.next && KeepsIncidents(db.impacts, db1.impacts, db.next)
  {
    var es := Selected(db.evidence, s, source, binding);
    match ImpactOn(db.impacts, db.impacts[s].incident, t)
    case Some(d) =>
      if d == s {
        RecomputeKeepsIncidents(db.impacts, db, {s}, db.next, now);
      } else if es == EvidenceOf(db.evidence, s) {
        RecomputeKeepsIncidents(db.impacts, Absorb(db, s, d, t), {d}, db.next, now);
      } else {
        RecomputeKeepsIncidents(db.impacts, Detach(db, es, d, t), {s, d}, db.next, now);
      }
    case None =>
      if es == EvidenceOf(db.evidence, s) {
        RecomputeKeepsIncidents(db.impacts, Retarget(db, s, t), {s}, db.next, now);
      } else {
        var row := SplitImpact(db.evidence, es, db.impacts[s].incident, t, now);
        RecomputeKeepsIncidents(db.impacts, Detach(WithImpact(db, row), es, db.next, t), {s, db.next}, db.next, now);
      }
  }

  lemma RemainingSkip(db: Db, order: seq<Id>, t: string, source: string, binding: string, ns: set<Id>)
    requires Shape(db) && Remaining(db, order, t, source, binding, ns) && |order| > 0 && order[0] !in db.impacts
    ensures Remaining(db, order[1..], t, source, binding, ns)
  {
    var rest := order[1..];
    assert forall k :: 0 <= k < |rest| ==> rest[k] == order[k + 1];
    forall e | e in db.evidence && FromSource(db.evidence[e], source, binding) && db.evidence[e].target != t
      ensures db.evidence[e].impact in rest
    {
      assert db.evidence[e].impact in db.impacts && db.evidence[e].impact in order;
      var k :| 0 <= k < |order| && order[k] == db.evidence[e].impact;
      assert rest[k - 1] == db.evidence[e].impact;
    }
  }

  lemma ReassignStart(db: Db, t: string, source: string, binding: string, order: seq<Id>)
    requires Inv(db) && Lists(order, ImpactsFrom(db.evidence, source, binding))
    ensures Remaining(db, order, t, source, binding, IncidentsFrom(db.evidence, source, binding))
  {
    forall k | 0 <= k < |order|
      ensures order[k] in db.impacts && order[k] < db.next
      ensures db.impacts[order[k]].incident in IncidentsFrom(db.evidence, source, binding)
    {
      assert order[k] in ImpactsFrom(db.evidence, source, binding);
      var e :| e in db.evidence && FromSource(db.evidence[e], source, binding) && db.evidence[e].impact == order[k];
      assert db.impacts[order[k]].incident == db.evidence[e].incident;
    }
    forall e | e in db.evidence && FromSource(db.evidence[e], source, binding)
      ensures db.evidence[e].impact in order
    {
      assert db.evidence[e].impact in ImpactsFrom(db.evidence, source, binding);
    }
  }

  /** Every row survives with its incident; exactly those of the source are on target `t`, the others where they were. */
  ghost predicate Moved(evidence: map<Id, Evidence>, evidence2: map<Id, Evidence>, t: string, source: string, binding: string)
  {
    && Conserved(evidence, evidence2)
    && forall e :: e in evidence ==>
      if FromSource(evidence[e], source, binding) then evidence2[e].target == t else evidence2[e] == evidence[e]
  }

  /** Moving a source conserves every evidence row and its incident, and puts exactly its evidence on the destination. */
  lemma ReassignSourceMeaning(db: Db, t: string, source: string, binding: string, order: seq<Id>, now: Time)
    requires Inv(db) && Lists(order, ImpactsFrom(db.evidence, source, binding))
    requires ReassignSource(db, t, source, binding, order, now).Ok?
    ensures var db2 := ReassignSource(db, t, source, binding, order, now).value;
      Inv(db2) && Moved(db.evidence, db2.evidence, t, source, binding)
  {
    var ns := IncidentsFrom(db.evidence, source, binding);
    ReassignStart(db, t, source, binding, order);
    PartialWider(db, ns);
    ReassignAllOk(db, order, t, source, binding, ns, now);
    RecomputedInv(ReassignAll(db, order, t, source, binding, now), ns, now);
  }
}
