/** Evidence identities: at most one active row each, none while suppressed, none on an archived target. */
module IncidentIdentities {
  import opened Common
  import opened IncidentModel
  import opened IncidentCycle
  import opened IncidentInvariants

  ghost predicate UniqueIdentity(evidence: map<Id, Evidence>)
  {
    forall e, e2 :: e in evidence && e2 in evidence && evidence[e].active && evidence[e2].active ==>
      (evidence[e].identity == evidence[e2].identity ==> e == e2)
  }

  /** While an invalidation is not re-armed, nothing with its identity is active. */
  ghost predicate Silenced(evidence: map<Id, Evidence>)
  {
    forall e, e2 :: e in evidence && e2 in evidence && Unarmed(evidence[e]) && evidence[e2].active ==>
      evidence[e].identity != evidence[e2].identity
  }

  predicate IsLive(targets: map<string, Target>, t: string)
  {
    t in targets && targets[t] == Live
  }

  ghost predicate OnLive(targets: map<string, Target>, evidence: map<Id, Evidence>)
  {
    forall e :: e in evidence && evidence[e].active ==> IsLive(targets, evidence[e].target)
  }

  ghost predicate Identities(db: Db)
  {
    UniqueIdentity(db.evidence) && Silenced(db.evidence) && OnLive(db.targets, db.evidence)
  }

  predicate HasActive(evidence: map<Id, Evidence>, id: Identity)
  {
    exists e :: e in evidence && evidence[e].active && evidence[e].identity == id
  }

  /** The columns that say whose evidence a row is and whether it stands. */
  predicate SameStanding(row: Evidence, row2: Evidence)
  {
    && row2.identity == row.identity && row2.target == row.target && row2.active == row.active
    && row2.invalidatedAt == row.invalidatedAt && row2.rearmedAt == row.rearmedAt
    && row2.incident == row.incident && row2.impact == row.impact && row2.connector == row.connector
  }

  ghost predicate SameStandings(evidence: map<Id, Evidence>, evidence2: map<Id, Evidence>)
  {
    evidence2.Keys == evidence.Keys && forall e :: e in evidence ==> SameStanding(evidence[e], evidence2[e])
  }

  /** A fact concerns its own identity only: no other row moves, no invalidation changes, no row disappears. */
  ghost predicate Others(evidence: map<Id, Evidence>, evidence2: map<Id, Evidence>, id: Identity)
  {
    && (forall e :: e in evidence ==>
          && e in evidence2 && evidence2[e].identity == evidence[e].identity
          && evidence2[e].incident == evidence[e].incident && evidence2[e].connector == evidence[e].connector
          && evidence2[e].invalidatedAt == evidence[e].invalidatedAt && evidence2[e].rearmedAt == evidence[e].rearmedAt
          && (evidence[e].identity != id ==> SameStanding(evidence[e], evidence2[e])))
    && (forall e :: e in evidence2 && e !in evidence ==>
          evidence2[e].identity == id && evidence2[e].active && evidence2[e].invalidatedAt.None?)
  }

  lemma SameStandingsKeep(targets: map<string, Target>, evidence: map<Id, Evidence>, evidence2: map<Id, Evidence>)
    requires SameStandings(evidence, evidence2)
    requires UniqueIdentity(evidence) && Silenced(evidence) && OnLive(targets, evidence)
    ensures UniqueIdentity(evidence2) && Silenced(evidence2) && OnLive(targets, evidence2)
  {
    forall e | e in evidence2 ensures SameStanding(evidence[e], evidence2[e]) {
    }
  }

  lemma AckOnlyStandings(db: Db, db2: Db)
    requires AckOnly(db, db2)
    ensures SameStandings(db.evidence, db2.evidence)
  {
    forall e | e in db.evidence ensures SameStanding(db.evidence[e], db2.evidence[e]) {
      assert SameButSync(db.evidence[e], db2.evidence[e]);
    }
  }

  lemma RefreshStandings(db: Db, e: Id, f: Fact, now: Time)
    requires ValidSeverity(f.severity) && e in db.evidence && Linked(db)
    ensures SameStandings(db.evidence, Refresh(db, e, f, now).evidence)
    ensures Refresh(db, e, f, now).targets == db.targets
  {
    var refreshed := RefreshRow(db, e, f);
    assert SameStandings(db.evidence, refreshed.evidence);
    if f.upstream {
      AckFromEvidenceOnly(refreshed, db.evidence[e].incident, now);
      AckOnlyStandings(refreshed, Refresh(db, e, f, now));
    }
  }

  /** Evidence after a new row `n` carrying `f` has been added. */
  ghost predicate AddedRow(evidence: map<Id, Evidence>, evidence2: map<Id, Evidence>, n: Id, f: Fact)
  {
    && n !in evidence && evidence2.Keys == evidence.Keys + {n}
    && (forall e :: e in evidence ==> SameStanding(evidence[e], evidence2[e]))
    && evidence2[n].identity == f.identity && evidence2[n].target == f.target && evidence2[n].active
    && evidence2[n].invalidatedAt.None? && evidence2[n].connector == f.connector
  }

  lemma AddEvidenceAdds(db: Db, f: Fact, i: Id, p: Id, now: Time)
    requires Shape(db) && ValidSeverity(f.severity) && i in db.incidents && Linked(db)
    ensures AddedRow(db.evidence, AddEvidence(db, f, i, p, now).evidence, db.next, f)
    ensures AddEvidence(db, f, i, p, now).targets == db.targets
  {
    var added := InsertEvidence(db, f, i, p);
    assert AddedRow(db.evidence, added.evidence, db.next, f);
    if f.upstream {
      AckFromEvidenceOnly(added, i, now);
      AckOnlyStandings(added, AddEvidence(db, f, i, p, now));
    }
  }

  lemma AddedRowKeeps(targets: map<string, Target>, evidence: map<Id, Evidence>, evidence2: map<Id, Evidence>,
      n: Id, f: Fact)
    requires AddedRow(evidence, evidence2, n, f)
    requires UniqueIdentity(evidence) && Silenced(evidence) && OnLive(targets, evidence)
    requires !HasActive(evidence, f.identity) && !Suppressed(evidence, f.identity) && IsLive(targets, f.target)
    ensures UniqueIdentity(evidence2) && Silenced(evidence2) && OnLive(targets, evidence2)
    ensures HasActive(evidence2, f.identity) && Others(evidence, evidence2, f.identity)
  {
    forall e | e in evidence2 && e != n ensures e in evidence && SameStanding(evidence[e], evidence2[e]) {
    }
    assert evidence2[n].active && evidence2[n].identity == f.identity;
  }

  /** What the outcome of a fact says about its identity. */
  ghost predicate FactOutcome(db: Db, f: Fact, r: Applied)
  {
    r.Failed? ||
    (&& Identities(r.db) && r.db.targets == db.targets && Others(db.evidence, r.db.evidence, f.identity)
     && (HasActive(r.db.evidence, f.identity) <==> r.Touched?)
     && (r.Ignored? <==> Suppressed(db.evidence, f.identity))
     && (r.Skipped? <==> !Suppressed(db.evidence, f.identity) && !IsLive(db.targets, f.target)))
  }

  lemma OpenFactOutcome(db: Db, f: Fact, now: Time)
    requires Shape(db) && Linked(db) && Identities(db) && ValidSeverity(f.severity)
    requires !HasActive(db.evidence, f.identity)
    ensures FactOutcome(db, f, OpenFact(db, f, now))
  {
    if !Suppressed(db.evidence, f.identity) && IsLive(db.targets, f.target) {
      var o := OpenImpact(db, f, now);
      OpenImpactShape(db, f, now);
      AddEvidenceAdds(o.db, f, o.incident, o.impact, now);
      var db2 := AddEvidence(o.db, f, o.incident, o.impact, now);
      AddedRowKeeps(db.targets, db.evidence, db2.evidence, o.db.next, f);
    }
  }

  lemma ResolveRowsKeep(db: Db, es: set<Id>, now: Time)
    requires Identities(db)
    ensures Identities(ResolveRows(db, es, now))
  {
  }

  lemma RetireOutcome(db: Db, e: Id, now: Time)
    requires Identities(db) && e in db.evidence && db.evidence[e].active
    ensures var db2 := Retire(db, e, now);
      && Identities(db2) && db2.targets == db.targets && !HasActive(db2.evidence, db.evidence[e].identity)
      && db2.evidence == ResolveRows(db, {e}, now).evidence
  {
    ResolveRowsKeep(db, {e}, now);
  }

  lemma OthersAfterRetire(db: Db, e: Id, evidence2: map<Id, Evidence>, now: Time)
    requires e in db.evidence && Others(ResolveRows(db, {e}, now).evidence, evidence2, db.evidence[e].identity)
    ensures Others(db.evidence, evidence2, db.evidence[e].identity)
  {
  }

  lemma SuppressedAfterRetire(db: Db, e: Id, id: Identity, now: Time)
    requires e in db.evidence
    ensures Suppressed(ResolveRows(db, {e}, now).evidence, id) <==> Suppressed(db.evidence, id)
  {
    var evidence2 := ResolveRows(db, {e}, now).evidence;
    assert forall x :: x in db.evidence ==> (Unarmed(db.evidence[x]) <==> Unarmed(evidence2[x]));
  }

  lemma ApplyFactOutcome(db: Db, f: Fact, now: Time)
    requires Shape(db) && Linked(db) && Identities(db)
    ensures FactOutcome(db, f, ApplyFact(db, f, now))
  {
    hide OpenFact, Refresh, Retire, IncidentRow, ImpactRow;
    if Complete(f) {
      match ActiveRow(db.evidence, f.identity)
      case None => OpenFactOutcome(db, f, now);
      case Some(e) =>
        var row := db.evidence[e];
        assert row.invalidatedAt.None?;
        if row.target == f.target && db.incidents[row.incident].nature.key == f.nature.key {
          RefreshStandings(db, e, f, now);
          SameStandingsKeep(db.targets, db.evidence, Refresh(db, e, f, now).evidence);
          assert SameStanding(row, Refresh(db, e, f, now).evidence[e]);
        } else {
          var db1 := Retire(db, e, now);
          RetireOutcome(db, e, now);
          RetireShape(db, e, now);
          OpenFactOutcome(db1, f, now);
          SuppressedAfterRetire(db, e, f.identity, now);
          if !OpenFact(db1, f, now).Failed? {
            OthersAfterRetire(db, e, OpenFact(db1, f, now).db.evidence, now);
          }
        }
    }
  }
}
