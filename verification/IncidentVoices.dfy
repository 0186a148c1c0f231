/** What a snapshot records: each active row it reports says what its report said. */
module IncidentVoices {
  import opened Common
  import opened IncidentModel
  import opened IncidentCycle
  import opened IncidentSnapshot
  import opened IncidentInvariants
  import opened IncidentAggregates
  import opened IncidentIdentities
  import opened IncidentTransactions
  import opened IncidentEvolution
  import opened IncidentHistory
  import opened IncidentReports

  /** The nature of the incident is that of the fact: the same key, or the same nature across targets. */
  predicate SameNature(a: Nature, b: Nature)
  {
    a.key == b.key ||
    (a.eligible && b.eligible && a.scope == b.scope && a.namespace == b.namespace && a.fingerprint == b.fingerprint)
  }

  /** Row `e` is active and says what the fact says. */
  ghost predicate Says(db: Db, e: Id, f: Fact)
  {
    && e in db.evidence && db.evidence[e].incident in db.incidents
    && Voices(db.evidence[e], f) && SameNature(db.incidents[db.evidence[e].incident].nature, f.nature)
  }

  predicate Voices(row: Evidence, f: Fact)
  {
    row.active && row.identity == f.identity && row.target == f.target && row.severity == f.severity && row.upstream == f.upstream
  }

  predicate SameVoice(row: Evidence, row2: Evidence)
  {
    && row2.active == row.active && row2.identity == row.identity && row2.target == row.target
    && row2.severity == row.severity && row2.upstream == row.upstream && row2.incident == row.incident
  }

  /** The rows of the identities `ids` keep what they say. */
  ghost predicate KeepsVoices(db: Db, db2: Db, ids: set<Identity>)
  {
    && (forall e :: e in db.evidence && db.evidence[e].identity in ids ==> e in db2.evidence && SameVoice(db.evidence[e], db2.evidence[e]))
    && (forall i :: i in db.incidents ==> i in db2.incidents && db2.incidents[i].nature == db.incidents[i].nature)
  }

  lemma KeepsVoicesTrans(a: Db, b: Db, c: Db, ids: set<Identity>)
    requires KeepsVoices(a, b, ids) && KeepsVoices(b, c, ids)
    ensures KeepsVoices(a, c, ids)
  {
  }

  lemma StillSays(db: Db, db2: Db, ids: set<Identity>, e: Id, f: Fact)
    requires KeepsVoices(db, db2, ids) && Says(db, e, f) && f.identity in ids
    ensures Says(db2, e, f)
  {
  }

  lemma EvolvesNatures(db: Db, db2: Db, now: Time)
    requires Evolves(db, db2, now)
    ensures forall i :: i in db.incidents ==> i in db2.incidents && db2.incidents[i].nature == db.incidents[i].nature
  {
    forall i | i in db.incidents
      ensures i in db2.incidents && db2.incidents[i].nature == db.incidents[i].nature
    {
      assert IncidentEvolves(db.incidents[i], db2.incidents[i], now);
    }
  }

  // ----- One fact -----

  lemma AckOnlyVoices(db: Db, db2: Db)
    requires AckOnly(db, db2)
    ensures db2.evidence.Keys == db.evidence.Keys && forall e :: e in db.evidence ==> SameVoice(db.evidence[e], db2.evidence[e])
  {
    forall e | e in db.evidence
      ensures SameVoice(db.evidence[e], db2.evidence[e])
    {
      assert SameButSync(db.evidence[e], db2.evidence[e]);
    }
  }

  lemma AddEvidenceVoices(db: Db, f: Fact, i: Id, p: Id, now: Time)
    requires Shape(db) && Linked(db) && ValidSeverity(f.severity) && i in db.incidents
    ensures var db2 := AddEvidence(db, f, i, p, now);
      && db.next in db2.evidence && Voices(db2.evidence[db.next], f) && db2.evidence[db.next].incident == i
      && forall e :: e in db.evidence ==> e in db2.evidence && SameVoice(db.evidence[e], db2.evidence[e])
  {
    hide ImpactRow, IncidentRow, EvidenceRow;
    var added := InsertEvidence(db, f, i, p);
    assert forall e :: e in db.evidence ==> e in added.evidence && SameVoice(db.evidence[e], added.evidence[e]);
    if f.upstream {
      AckFromEvidenceOnly(added, i, now);
      AckOnlyVoices(added, AddEvidence(db, f, i, p, now));
    }
  }

  lemma RefreshVoices(db: Db, e: Id, f: Fact, now: Time)
    requires Linked(db) && ValidSeverity(f.severity) && e in db.evidence && db.evidence[e].active
    requires db.evidence[e].identity == f.identity && db.evidence[e].target == f.target
    ensures var db2 := Refresh(db, e, f, now);
      && e in db2.evidence && Voices(db2.evidence[e], f) && db2.evidence[e].incident == db.evidence[e].incident
      && forall x :: x in db.evidence && x != e ==> x in db2.evidence && SameVoice(db.evidence[x], db2.evidence[x])
  {
    var refreshed := RefreshRow(db, e, f);
    if f.upstream {
      AckFromEvidenceOnly(refreshed, db.evidence[e].incident, now);
      AckOnlyVoices(refreshed, Refresh(db, e, f, now));
    }
  }

  /** The incident a fact is recorded on has its nature. */
  lemma OpenImpactNature(db: Db, f: Fact, now: Time)
    requires Shape(db) && Linked(db) && ValidSeverity(f.severity)
    ensures var o := OpenImpact(db, f, now);
      o.incident in o.db.incidents && SameNature(o.db.incidents[o.incident].nature, f.nature)
  {
    hide Join, Resume, Create, Shape;
    match ActiveImpact(db, f)
    case Some(p) =>
    case None =>
      match PropagatingIncident(db, f)
      case Some(i) => JoinNature(db, i, f);
      case None =>
        match ResumableImpact(db, f, now)
        case Some(p) => ResumeNature(db, p, f, now);
        case None => CreateNature(db, f, now);
  }

  lemma JoinNature(db: Db, i: Id, f: Fact)
    requires ValidSeverity(f.severity) && i in db.incidents && Propagates(db.incidents[i], f) && f.nature.eligible
    ensures var o := Join(db, i, f); o.incident in o.db.incidents && SameNature(o.db.incidents[o.incident].nature, f.nature)
  {
    hide EvidenceWindow;
  }

  lemma ResumeNature(db: Db, p: Id, f: Fact, now: Time)
    requires ValidSeverity(f.severity) && Bears(db, p, f.target, f.nature.key)
    ensures var o := Resume(db, p, f, now); o.incident in o.db.incidents && SameNature(o.db.incidents[o.incident].nature, f.nature)
  {
  }

  lemma CreateNature(db: Db, f: Fact, now: Time)
    requires ValidSeverity(f.severity)
    ensures var o := Create(db, f, now); o.incident in o.db.incidents && SameNature(o.db.incidents[o.incident].nature, f.nature)
  {
    hide EvidenceWindow;
  }

  /** What the outcome of a fact says, and what it leaves of the other identities. */
  ghost predicate Recorded(db: Db, f: Fact, r: Applied, others: set<Identity>)
  {
    !r.Failed? ==> KeepsVoices(db, r.db, others) && (r.Touched? ==> exists e :: Says(r.db, e, f))
  }

  lemma OpenFactRecords(db: Db, f: Fact, others: set<Identity>, now: Time)
    requires Shape(db) && Linked(db) && ValidSeverity(f.severity) && f.identity !in others
    ensures Recorded(db, f, OpenFact(db, f, now), others)
  {
    hide OpenImpact, AddEvidence, Shape, Evolves;
    if OpenFact(db, f, now).Touched? {
      var o := OpenImpact(db, f, now);
      var db2 := AddEvidence(o.db, f, o.incident, o.impact, now);
      OpenImpactShape(db, f, now);
      OpenImpactNature(db, f, now);
      OpenFactEvolves(db, f, now);
      EvolvesNatures(db, db2, now);
      AddEvidenceVoices(o.db, f, o.incident, o.impact, now);
      AddEvidenceNatures(o.db, f, o.incident, o.impact, now);
      assert Says(db2, o.db.next, f);
    }
  }

  lemma AddEvidenceNatures(db: Db, f: Fact, i: Id, p: Id, now: Time)
    requires Linked(db) && ValidSeverity(f.severity) && i in db.incidents
    ensures var db2 := AddEvidence(db, f, i, p, now); i in db2.incidents && db2.incidents[i].nature == db.incidents[i].nature
  {
    var added := InsertEvidence(db, f, i, p);
    if f.upstream {
      AckFromEvidenceOnly(added, i, now);
      assert SameButAck(added.incidents[i], AddEvidence(db, f, i, p, now).incidents[i]);
    }
  }

  lemma RetireVoices(db: Db, e: Id, others: set<Identity>, now: Time)
    requires e in db.evidence && db.evidence[e].identity !in others
    ensures KeepsVoices(db, Retire(db, e, now), others)
  {
    assert Retire(db, e, now).evidence == ResolveRows(db, {e}, now).evidence;
  }

  lemma ApplyFactRecords(db: Db, f: Fact, others: set<Identity>, now: Time)
    requires Shape(db) && Linked(db) && f.identity !in others
    ensures Recorded(db, f, ApplyFact(db, f, now), others)
  {
    hide OpenFact, Refresh, Retire, KeepsVoices, Evolves;
    if Complete(f) {
      match ActiveRow(db.evidence, f.identity)
      case None => OpenFactRecords(db, f, others, now);
      case Some(e) =>
        var row := db.evidence[e];
        assert EvidenceRow(row);
        if row.target == f.target && db.incidents[row.incident].nature.key == f.nature.key {
          RefreshRecords(db, e, f, others, now);
        } else {
          var db1 := Retire(db, e, now);
          RetireShape(db, e, now);
          RetireVoices(db, e, others, now);
          OpenFactRecords(db1, f, others, now);
          if !OpenFact(db1, f, now).Failed? {
            KeepsVoicesTrans(db, db1, OpenFact(db1, f, now).db, others);
          }
        }
    }
  }

  lemma RefreshRecords(db: Db, e: Id, f: Fact, others: set<Identity>, now: Time)
    requires Shape(db) && Linked(db) && ValidSeverity(f.severity) && f.identity !in others
    requires e in db.evidence && db.evidence[e].active && db.evidence[e].identity == f.identity && db.evidence[e].target == f.target
    requires db.incidents[db.evidence[e].incident].nature.key == f.nature.key
    ensures var db2 := Refresh(db, e, f, now); KeepsVoices(db, db2, others) && Says(db2, e, f)
  {
    hide Refresh, Evolves, Shape;
    RefreshVoices(db, e, f, now);
    RefreshEvolves(db, e, f, now);
    EvolvesNatures(db, Refresh(db, e, f, now), now);
  }

  // ----- One snapshot -----

  /** Every identity that the facts have left active says what its report said. */
  ghost predicate Recounted(pass: Pass, facts: seq<Fact>, out: Pass)
  {
    && KeepsVoices(pass.db, out.db, pass.seen)
    && forall id :: id in IdentitiesOf(facts) && id !in pass.seen && HasActive(out.db.evidence, id) ==>
      exists e :: Says(out.db, e, Reporter(facts, id))
  }

  lemma RecountedCons(pass: Pass, mid: Pass, facts: seq<Fact>, out: Pass)
    requires facts != [] && facts[0].identity !in pass.seen && mid.seen == pass.seen + {facts[0].identity}
    requires KeepsVoices(pass.db, mid.db, pass.seen) && Recounted(mid, facts[1..], out)
    requires (exists e :: Says(mid.db, e, facts[0])) || !HasActive(mid.db.evidence, facts[0].identity)
    requires HasActive(out.db.evidence, facts[0].identity) ==> HasActive(mid.db.evidence, facts[0].identity)
    ensures Recounted(pass, facts, out)
  {
    hide Says;
    var f, rest := facts[0], facts[1..];
    IdentitiesCons(facts);
    KeepsFewer(mid.db, out.db, mid.seen, pass.seen);
    KeepsVoicesTrans(pass.db, mid.db, out.db, pass.seen);
    forall id | id in IdentitiesOf(facts) && id !in pass.seen && HasActive(out.db.evidence, id)
      ensures exists e :: Says(out.db, e, Reporter(facts, id))
    {
      if id == f.identity {
        var e :| Says(mid.db, e, f);
        StillSays(mid.db, out.db, mid.seen, e, f);
        assert Says(out.db, e, Reporter(facts, id));
      } else {
        var e :| Says(out.db, e, Reporter(rest, id));
        assert Says(out.db, e, Reporter(facts, id));
      }
    }
  }

  lemma KeepsFewer(db: Db, db2: Db, ids: set<Identity>, fewer: set<Identity>)
    requires KeepsVoices(db, db2, ids) && fewer <= ids
    ensures KeepsVoices(db, db2, fewer)
  {
  }

  lemma {:induction false} ApplyFactsRecount(pass: Pass, facts: seq<Fact>, now: Time)
    requires PassOk(pass) && Linked(pass.db) && ApplyFacts(pass, facts, now).Ok?
    ensures Recounted(pass, facts, ApplyFacts(pass, facts, now).value)
    decreases |facts|
  {
    hide Says, KeepsVoices, Partial, ApplyFact, Reported;
    if facts == [] {
      SameVoices(pass.db, pass.seen);
    } else {
      var f, rest := facts[0], facts[1..];
      var mid := ApplyOne(pass, f, now).value;
      var out := ApplyFacts(mid, rest, now).value;
      ApplyOneOk(pass, f, now);
      ApplyFactsRecount(mid, rest, now);
      if f.identity in pass.seen {
        RecountedSkip(pass, facts, out);
      } else {
        ApplyFactRecordsPass(pass, f, now);
        ApplyFactsReport(mid, rest, now);
        SettledIdentity(mid, rest, out, f.identity);
        RecountedCons(pass, mid, facts, out);
      }
    }
  }

  lemma SameVoices(db: Db, ids: set<Identity>)
    ensures KeepsVoices(db, db, ids)
  {
  }

  lemma RecountedSkip(pass: Pass, facts: seq<Fact>, out: Pass)
    requires facts != [] && facts[0].identity in pass.seen && Recounted(pass, facts[1..], out)
    ensures Recounted(pass, facts, out)
  {
    hide Says, KeepsVoices;
    IdentitiesCons(facts);
    forall id | id in IdentitiesOf(facts) && id !in pass.seen && HasActive(out.db.evidence, id)
      ensures exists e :: Says(out.db, e, Reporter(facts, id))
    {
      var e :| Says(out.db, e, Reporter(facts[1..], id));
      assert Says(out.db, e, Reporter(facts, id));
    }
  }

  lemma ApplyFactRecordsPass(pass: Pass, f: Fact, now: Time)
    requires PassOk(pass) && Linked(pass.db) && f.identity !in pass.seen && ApplyOne(pass, f, now).Ok?
    ensures var mid := ApplyOne(pass, f, now).value;
      && mid.seen == pass.seen + {f.identity} && KeepsVoices(pass.db, mid.db, pass.seen)
      && ((exists e :: Says(mid.db, e, f)) || !HasActive(mid.db.evidence, f.identity))
  {
    hide Says, KeepsVoices, ApplyFact, Clean;
    ApplyFactRecords(pass.db, f, pass.seen, now);
    ApplyFactOutcome(pass.db, f, now);
  }

  /** Facts that follow do not bring back an identity already seen. */
  lemma SettledIdentity(mid: Pass, rest: seq<Fact>, out: Pass, id: Identity)
    requires IncidentReports.Reported(mid, rest, out) && id in mid.seen
    ensures HasActive(out.db.evidence, id) ==> HasActive(mid.db.evidence, id)
  {
    KeepsMarksActive(mid.db.evidence, out.db.evidence, IdentitiesOf(rest) - mid.seen, id);
  }

  lemma FinishVoices(pass: Pass, s: Snapshot)
    ensures KeepsVoices(pass.db, Finish(pass, s), pass.seen)
  {
    hide Evolves;
    var gone := Gone(pass.db, s, pass.seen);
    var db2 := Finish(pass, s);
    assert db2.evidence == Rearm(ResolveRows(pass.db, gone, s.observedAt), s, pass.seen, s.observedAt).evidence;
    FinishEvolves(pass, s);
    EvolvesNatures(pass.db, db2, s.observedAt);
  }

  /**
   * After a snapshot, the active row of each identity it reported says what the report said: its target, its severity,
   * its upstream acknowledgement, in an incident of its nature.
   */
  lemma SnapshotRecords(db: Db, s: Snapshot, id: Identity)
    requires Inv(db) && Linked(db) && ApplySnapshot(db, s).Ok? && id in ReportedIds(s)
    requires HasActive(ApplySnapshot(db, s).value.evidence, id)
    ensures exists e :: Says(ApplySnapshot(db, s).value, e, Reporter(Prepared(s), id))
  {
    hide Says, KeepsVoices, Partial, ApplyFacts, Finish;
    var pass := Pass(db, {}, {}, {});
    var out := ApplyFacts(pass, Prepared(s), s.observedAt).value;
    ApplyFactsRecount(pass, Prepared(s), s.observedAt);
    ApplyFactsReport(pass, Prepared(s), s.observedAt);
    FinishVoices(out, s);
    FinishConcludes(out, s);
    StillActive(out, s, id);
    var e :| Says(out.db, e, Reporter(Prepared(s), id));
    StillSays(out.db, Finish(out, s), out.seen, e, Reporter(Prepared(s), id));
  }

  lemma StillActive(out: Pass, s: Snapshot, id: Identity)
    requires forall e :: e in out.db.evidence ==>
      e in Finish(out, s).evidence && Concluded(s, out.seen, out.db.evidence[e], Finish(out, s).evidence[e])
    requires Finish(out, s).evidence.Keys == out.db.evidence.Keys && HasActive(Finish(out, s).evidence, id)
    ensures HasActive(out.db.evidence, id)
  {
    hide Finish;
    var e :| e in Finish(out, s).evidence && Finish(out, s).evidence[e].active && Finish(out, s).evidence[e].identity == id;
    assert Concluded(s, out.seen, out.db.evidence[e], Finish(out, s).evidence[e]);
  }
}
