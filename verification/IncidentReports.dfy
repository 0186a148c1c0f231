/** What a snapshot means: which identities are active once it is committed. */
module IncidentReports {
  import opened Common
  import opened IncidentModel
  import opened IncidentCycle
  import opened IncidentSnapshot
  import opened IncidentInvariants
  import opened IncidentAggregates
  import opened IncidentIdentities
  import opened IncidentTransactions

  // ----- The order of the facts -----

  lemma {:induction false} InsertPermutes(f: Fact, sorted: seq<Fact>)
    ensures multiset(Insert(f, sorted)) == multiset(sorted) + multiset{f}
  {
    if |sorted| > 0 && Before(f, sorted[|sorted| - 1]) {
      var init, last := sorted[..|sorted| - 1], sorted[|sorted| - 1];
      InsertPermutes(f, init);
      assert sorted == init + [last];
    }
  }

  lemma {:induction false} SortPermutes(facts: seq<Fact>)
    ensures multiset(Sort(facts)) == multiset(facts)
  {
    if facts != [] {
      var init, last := facts[..|facts| - 1], facts[|facts| - 1];
      SortPermutes(init);
      InsertPermutes(last, Sort(init));
      assert facts == init + [last];
    }
  }

  lemma NotBeforeTransitive(a: Fact, b: Fact, c: Fact)
    requires !Before(b, a) && !Before(c, b)
    ensures !Before(c, a)
  {
    if a.openedAt == b.openedAt && b.openedAt == c.openedAt {
      NotLessTransitive(SortKey(a), SortKey(b), SortKey(c));
    }
  }

  /** No fact comes before one listed ahead of it. */
  predicate InOrder(facts: seq<Fact>)
  {
    forall k, l :: 0 <= k < l < |facts| ==> !Before(facts[l], facts[k])
  }

  lemma InOrderSnoc(facts: seq<Fact>, last: Fact)
    requires InOrder(facts) && forall x :: x in facts ==> !Before(last, x)
    ensures InOrder(facts + [last])
  {
  }

  lemma {:induction false} InsertInOrder(f: Fact, sorted: seq<Fact>)
    requires InOrder(sorted)
    ensures InOrder(Insert(f, sorted)) && forall x :: x in Insert(f, sorted) ==> x == f || x in sorted
  {
    hide Before;
    if |sorted| > 0 {
      var init, last := sorted[..|sorted| - 1], sorted[|sorted| - 1];
      assert forall x :: x in init ==> !Before(last, x);
      if Before(f, last) {
        InsertInOrder(f, init);
        BeforeAsymmetric(f, last);
        InOrderSnoc(Insert(f, init), last);
      } else {
        forall x | x in sorted
          ensures !Before(f, x)
        {
          if x != last {
            assert x in init;
            NotBeforeTransitive(x, last, f);
          }
        }
        InOrderSnoc(sorted, f);
      }
    }
  }

  lemma BeforeAsymmetric(a: Fact, b: Fact)
    requires Before(a, b)
    ensures !Before(b, a)
  {
    if a.openedAt == b.openedAt {
      LessAsymmetric(SortKey(a), SortKey(b));
    }
  }

  lemma {:induction false} SortInOrder(facts: seq<Fact>)
    ensures InOrder(Sort(facts))
  {
    if facts != [] {
      SortInOrder(facts[..|facts| - 1]);
      InsertInOrder(facts[|facts| - 1], Sort(facts[..|facts| - 1]));
    }
  }

  predicate Tied(a: Fact, b: Fact) { !Before(a, b) && !Before(b, a) }

  /** The facts tied with `f`, in the order they are listed. */
  function TiedWith(facts: seq<Fact>, f: Fact): seq<Fact>
  {
    if facts == [] then []
    else TiedWith(facts[..|facts| - 1], f) + if Tied(facts[|facts| - 1], f) then [facts[|facts| - 1]] else []
  }

  lemma TiedSnoc(facts: seq<Fact>, x: Fact, f: Fact)
    ensures TiedWith(facts + [x], f) == TiedWith(facts, f) + if Tied(x, f) then [x] else []
  {
    assert (facts + [x])[..|facts|] == facts;
  }

  lemma {:induction false} InsertKeepsTies(x: Fact, sorted: seq<Fact>, f: Fact)
    ensures TiedWith(Insert(x, sorted), f) == TiedWith(sorted, f) + if Tied(x, f) then [x] else []
  {
    hide Before;
    if |sorted| == 0 || !Before(x, sorted[|sorted| - 1]) {
      TiedSnoc(sorted, x, f);
    } else {
      var init, last := sorted[..|sorted| - 1], sorted[|sorted| - 1];
      InsertKeepsTies(x, init, f);
      TiedSnoc(Insert(x, init), last, f);
      if Tied(x, f) && Tied(last, f) {
        NotBeforeTransitive(last, f, x);
      }
    }
  }

  /** Sorting is stable: facts that are tied keep the order in which they were reported. */
  lemma {:induction false} SortKeepsTies(facts: seq<Fact>, f: Fact)
    ensures TiedWith(Sort(facts), f) == TiedWith(facts, f)
  {
    if facts != [] {
      var init, last := facts[..|facts| - 1], facts[|facts| - 1];
      SortKeepsTies(init, f);
      InsertKeepsTies(last, Sort(init), f);
    }
  }

  /** The order of application is a stable rearrangement of the facts reported. */
  lemma PreparedIsSorted(s: Snapshot, f: Fact)
    ensures multiset(Prepared(s)) == multiset(RawFacts(s)) && InOrder(Prepared(s))
    ensures TiedWith(Prepared(s), f) == TiedWith(RawFacts(s), f)
  {
    SortPermutes(RawFacts(s));
    SortInOrder(RawFacts(s));
    SortKeepsTies(RawFacts(s), f);
  }

  function IdentitiesOf(facts: seq<Fact>): set<Identity>
  {
    set k | 0 <= k < |facts| :: facts[k].identity
  }

  /** The fact that speaks for an identity: the first one in the order of application. */
  function Reporter(facts: seq<Fact>, id: Identity): (f: Fact)
    requires id in IdentitiesOf(facts)
    ensures f in facts && f.identity == id
  {
    if facts[0].identity == id then facts[0]
    else
      assert id in IdentitiesOf(facts[1..]) by {
        var k :| 0 <= k < |facts| && facts[k].identity == id;
        assert facts[1..][k - 1].identity == id;
      }
      Reporter(facts[1..], id)
  }

  lemma {:induction false} ReporterIsFirst(facts: seq<Fact>, id: Identity, k: nat)
    requires InOrder(facts) && k < |facts| && facts[k].identity == id && id in IdentitiesOf(facts)
    ensures !Before(facts[k], Reporter(facts, id))
    decreases |facts|
  {
    if facts[0].identity != id {
      var rest := facts[1..];
      assert rest[k - 1].identity == id;
      assert id in IdentitiesOf(rest);
      ReporterIsFirst(rest, id, k - 1);
    } else if k == 0 {
      if Before(facts[0], facts[0]) {
        BeforeAsymmetric(facts[0], facts[0]);
      }
    }
  }

  /** Among the signals of an identity, one that opened first speaks for it. */
  lemma ReporterIsEarliest(s: Snapshot, id: Identity, k: nat)
    requires k < |RawFacts(s)| && RawFacts(s)[k].identity == id && id in IdentitiesOf(Prepared(s))
    ensures Reporter(Prepared(s), id).openedAt <= RawFacts(s)[k].openedAt
  {
    PreparedIsSorted(s, RawFacts(s)[k]);
    assert RawFacts(s)[k] in multiset(Prepared(s));
    var l :| 0 <= l < |Prepared(s)| && Prepared(s)[l] == RawFacts(s)[k];
    ReporterIsFirst(Prepared(s), id, l);
  }

  // ----- One pass over the facts -----

  /** Rows keep what identifies and suppresses them. */
  ghost predicate KeepsMarks(evidence: map<Id, Evidence>, evidence2: map<Id, Evidence>, ids: set<Identity>)
  {
    && (forall e :: e in evidence ==>
          && e in evidence2 && evidence2[e].identity == evidence[e].identity && evidence2[e].connector == evidence[e].connector
          && evidence2[e].invalidatedAt == evidence[e].invalidatedAt && evidence2[e].rearmedAt == evidence[e].rearmedAt
          && (evidence[e].identity !in ids ==> evidence2[e].active == evidence[e].active))
    && (forall e :: e in evidence2 && e !in evidence ==>
          evidence2[e].identity in ids && evidence2[e].invalidatedAt.None?)
  }

  lemma KeepsMarksTrans(a: map<Id, Evidence>, b: map<Id, Evidence>, c: map<Id, Evidence>, ids: set<Identity>)
    requires KeepsMarks(a, b, ids) && KeepsMarks(b, c, ids)
    ensures KeepsMarks(a, c, ids)
  {
  }

  lemma KeepsMarksWider(a: map<Id, Evidence>, b: map<Id, Evidence>, ids: set<Identity>, ids2: set<Identity>)
    requires KeepsMarks(a, b, ids) && ids <= ids2
    ensures KeepsMarks(a, b, ids2)
  {
  }

  lemma KeepsMarksSuppressed(a: map<Id, Evidence>, b: map<Id, Evidence>, ids: set<Identity>, id: Identity)
    requires KeepsMarks(a, b, ids)
    ensures Suppressed(b, id) <==> Suppressed(a, id)
  {
    if e :| e in a && Unarmed(a[e]) && a[e].identity == id {
      assert e in b && Unarmed(b[e]);
    }
    if e :| e in b && Unarmed(b[e]) && b[e].identity == id {
      assert e in a && Unarmed(a[e]);
    }
  }

  lemma KeepsMarksActive(a: map<Id, Evidence>, b: map<Id, Evidence>, ids: set<Identity>, id: Identity)
    requires KeepsMarks(a, b, ids) && id !in ids
    ensures HasActive(b, id) <==> HasActive(a, id)
  {
    if e :| e in a && a[e].active && a[e].identity == id {
      assert e in b && b[e].active;
    }
    if e :| e in b && b[e].active && b[e].identity == id {
      assert e in a && a[e].active;
    }
  }

  lemma OthersKeepMarks(a: map<Id, Evidence>, b: map<Id, Evidence>, id: Identity)
    requires Others(a, b, id)
    ensures KeepsMarks(a, b, {id})
  {
    forall e | e in a && a[e].identity != id
      ensures b[e].active == a[e].active
    {
      assert SameStanding(a[e], b[e]);
    }
  }

  /** The identity is active afterwards exactly if it is neither suppressed nor reported on a target that is not live. */
  ghost predicate Decided(before: Db, evidence2: map<Id, Evidence>, id: Identity, target: string)
  {
    HasActive(evidence2, id) <==> !Suppressed(before.evidence, id) && IsLive(before.targets, target)
  }

  /** What the facts decide, given the identities seen before them. */
  ghost predicate Reported(pass: Pass, facts: seq<Fact>, out: Pass)
  {
    && out.seen == pass.seen + IdentitiesOf(facts) && out.db.targets == pass.db.targets
    && KeepsMarks(pass.db.evidence, out.db.evidence, IdentitiesOf(facts) - pass.seen)
    && forall id :: id in IdentitiesOf(facts) && id !in pass.seen ==>
      Decided(pass.db, out.db.evidence, id, Reporter(facts, id).target)
  }

  /** What one new fact decides. */
  ghost predicate ReportedOne(pass: Pass, f: Fact, mid: Pass)
  {
    && mid.seen == pass.seen + {f.identity} && mid.db.targets == pass.db.targets
    && KeepsMarks(pass.db.evidence, mid.db.evidence, {f.identity})
    && Decided(pass.db, mid.db.evidence, f.identity, f.target)
  }

  lemma ApplyOneReport(pass: Pass, f: Fact, now: Time)
    requires PassOk(pass) && Linked(pass.db) && f.identity !in pass.seen && ApplyOne(pass, f, now).Ok?
    ensures ReportedOne(pass, f, ApplyOne(pass, f, now).value)
  {
    ApplyFactOutcome(pass.db, f, now);
    OthersKeepMarks(pass.db.evidence, ApplyFact(pass.db, f, now).db.evidence, f.identity);
  }

  lemma ReportedSkip(pass: Pass, facts: seq<Fact>, out: Pass)
    requires facts != [] && facts[0].identity in pass.seen && Reported(pass, facts[1..], out)
    ensures Reported(pass, facts, out)
  {
    IdentitiesCons(facts);
    assert IdentitiesOf(facts) - pass.seen == IdentitiesOf(facts[1..]) - pass.seen;
  }

  lemma ReportedCons(pass: Pass, mid: Pass, facts: seq<Fact>, out: Pass)
    requires facts != [] && facts[0].identity !in pass.seen
    requires ReportedOne(pass, facts[0], mid) && Reported(mid, facts[1..], out)
    ensures Reported(pass, facts, out)
  {
    var f, rest, ids := facts[0], facts[1..], IdentitiesOf(facts) - pass.seen;
    IdentitiesCons(facts);
    KeepsMarksWider(pass.db.evidence, mid.db.evidence, {f.identity}, ids);
    KeepsMarksWider(mid.db.evidence, out.db.evidence, IdentitiesOf(rest) - mid.seen, ids);
    KeepsMarksTrans(pass.db.evidence, mid.db.evidence, out.db.evidence, ids);
    forall id | id in IdentitiesOf(facts) && id !in pass.seen
      ensures Decided(pass.db, out.db.evidence, id, Reporter(facts, id).target)
    {
      if id == f.identity {
        KeepsMarksActive(mid.db.evidence, out.db.evidence, IdentitiesOf(rest) - mid.seen, id);
      } else {
        KeepsMarksSuppressed(pass.db.evidence, mid.db.evidence, {f.identity}, id);
        assert Decided(mid.db, out.db.evidence, id, Reporter(rest, id).target);
      }
    }
  }

  lemma {:induction false} ApplyFactsReport(pass: Pass, facts: seq<Fact>, now: Time)
    requires PassOk(pass) && Linked(pass.db) && ApplyFacts(pass, facts, now).Ok?
    ensures Reported(pass, facts, ApplyFacts(pass, facts, now).value)
    decreases |facts|
  {
    if facts != [] {
      var mid := ApplyOne(pass, facts[0], now).value;
      ApplyOneOk(pass, facts[0], now);
      ApplyFactsReport(mid, facts[1..], now);
      if facts[0].identity in pass.seen {
        ReportedSkip(pass, facts, ApplyFacts(mid, facts[1..], now).value);
      } else {
        ApplyOneReport(pass, facts[0], now);
        ReportedCons(pass, mid, facts, ApplyFacts(mid, facts[1..], now).value);
      }
    }
  }

  lemma IdentitiesCons(facts: seq<Fact>)
    requires facts != []
    ensures IdentitiesOf(facts) == {facts[0].identity} + IdentitiesOf(facts[1..])
  {
    var rest := facts[1..];
    forall id | id in IdentitiesOf(facts)
      ensures id == facts[0].identity || id in IdentitiesOf(rest)
    {
      var k :| 0 <= k < |facts| && facts[k].identity == id;
      if k > 0 {
        assert rest[k - 1].identity == id;
      }
    }
    forall id | id in IdentitiesOf(rest)
      ensures id in IdentitiesOf(facts)
    {
      var k :| 0 <= k < |rest| && rest[k].identity == id;
      assert facts[k + 1].identity == id;
    }
  }

  // ----- The end of a snapshot -----

  /** A row once the snapshot is committed, given the row once its facts are applied. */
  predicate Concluded(s: Snapshot, seen: set<Identity>, row: Evidence, row2: Evidence)
  {
    && row2.identity == row.identity && row2.connector == row.connector && row2.invalidatedAt == row.invalidatedAt
    && (row2.active <==> row.active && (row.identity in seen || !Observes(s, row)))
    && (Unarmed(row2) <==> Unarmed(row) && (row.identity in seen || !Observes(s, row)))
  }

  lemma FinishConcludes(pass: Pass, s: Snapshot)
    ensures var db2 := Finish(pass, s);
      && db2.evidence.Keys == pass.db.evidence.Keys && db2.targets == pass.db.targets
      && forall e :: e in pass.db.evidence ==> Concluded(s, pass.seen, pass.db.evidence[e], db2.evidence[e])
  {
    var db2 := Finish(pass, s);
    var gone := Gone(pass.db, s, pass.seen);
    assert db2.evidence == Rearm(ResolveRows(pass.db, gone, s.observedAt), s, pass.seen, s.observedAt).evidence;
  }

  function ReportedIds(s: Snapshot): set<Identity>
  {
    IdentitiesOf(Prepared(s))
  }

  lemma SameIdentities(a: seq<Fact>, b: seq<Fact>)
    requires multiset(a) == multiset(b)
    ensures IdentitiesOf(a) <= IdentitiesOf(b)
  {
    forall id | id in IdentitiesOf(a)
      ensures id in IdentitiesOf(b)
    {
      var k :| 0 <= k < |a| && a[k].identity == id;
      assert a[k] in multiset(b);
      var l :| 0 <= l < |b| && b[l] == a[k];
      assert b[l].identity == id;
    }
  }

  /** The identities reported are those of the signals, whatever their order. */
  lemma ReportedIdsAreSignals(s: Snapshot)
    ensures ReportedIds(s) == IdentitiesOf(RawFacts(s))
  {
    SortPermutes(RawFacts(s));
    SameIdentities(Sort(RawFacts(s)), RawFacts(s));
    SameIdentities(RawFacts(s), Sort(RawFacts(s)));
  }

  /** Which rows a committed snapshot leaves standing. */
  ghost predicate SnapshotStands(db: Db, s: Snapshot, db2: Db)
  {
    // a reported identity is active unless suppressed or reported on a target that is not live
    && (forall id :: id in ReportedIds(s) ==> Decided(db, db2.evidence, id, Reporter(Prepared(s), id).target))
    // an unreported row of the observed region is closed, any other one is left as it was
    && (forall e :: e in db.evidence && db.evidence[e].identity !in ReportedIds(s) ==>
          && e in db2.evidence
          && (db2.evidence[e].active <==> db.evidence[e].active && !Observes(s, db.evidence[e])))
    // an invalidation is re-armed exactly if it is observed and not reported
    && (forall e :: e in db.evidence && Unarmed(db.evidence[e]) ==>
          && e in db2.evidence
          && (Unarmed(db2.evidence[e]) <==> db.evidence[e].identity in ReportedIds(s) || !Observes(s, db.evidence[e])))
    // new rows carry reported identities
    && (forall e :: e in db2.evidence && e !in db.evidence ==> db2.evidence[e].identity in ReportedIds(s))
  }

  lemma SnapshotMeaning(db: Db, s: Snapshot)
    requires Inv(db) && Linked(db) && ApplySnapshot(db, s).Ok?
    ensures SnapshotStands(db, s, ApplySnapshot(db, s).value)
  {
    var pass := Pass(db, {}, {}, {});
    var out := ApplyFacts(pass, Prepared(s), s.observedAt).value;
    ApplyFactsReport(pass, Prepared(s), s.observedAt);
    FinishConcludes(out, s);
    Conclude(db, s, out, Finish(out, s));
  }

  lemma Conclude(db: Db, s: Snapshot, out: Pass, db2: Db)
    requires Reported(Pass(db, {}, {}, {}), Prepared(s), out)
    requires db2.evidence.Keys == out.db.evidence.Keys
    requires forall e :: e in out.db.evidence ==> Concluded(s, out.seen, out.db.evidence[e], db2.evidence[e])
    ensures SnapshotStands(db, s, db2)
  {
    assert out.seen == ReportedIds(s) && ReportedIds(s) - {} == ReportedIds(s);
    forall id | id in ReportedIds(s)
      ensures Decided(db, db2.evidence, id, Reporter(Prepared(s), id).target)
    {
      assert Decided(db, out.db.evidence, id, Reporter(Prepared(s), id).target);
      if e :| e in out.db.evidence && out.db.evidence[e].active && out.db.evidence[e].identity == id {
        assert Concluded(s, out.seen, out.db.evidence[e], db2.evidence[e]);
      }
      if e :| e in db2.evidence && db2.evidence[e].active && db2.evidence[e].identity == id {
        assert Concluded(s, out.seen, out.db.evidence[e], db2.evidence[e]);
      }
    }
    forall e | e in db.evidence
      ensures e in db2.evidence && Concluded(s, out.seen, out.db.evidence[e], db2.evidence[e])
      ensures out.db.evidence[e].identity == db.evidence[e].identity
      ensures Observes(s, out.db.evidence[e]) == Observes(s, db.evidence[e])
    {
    }
  }

  /** An identity the snapshot speaks for, by reporting it or by observing a row of it, is active. */
  ghost predicate ActiveInRegion(db: Db, s: Snapshot, id: Identity)
  {
    exists e :: e in db.evidence && db.evidence[e].identity == id && db.evidence[e].active &&
      (id in ReportedIds(s) || Observes(s, db.evidence[e]))
  }

  /** In the region of a snapshot, the active identities are exactly the reported ones, less those suppressed or off. */
  lemma SnapshotActiveIdentities(db: Db, s: Snapshot, id: Identity)
    requires Inv(db) && Linked(db) && ApplySnapshot(db, s).Ok?
    ensures ActiveInRegion(ApplySnapshot(db, s).value, s, id) <==>
      && id in ReportedIds(s) && !Suppressed(db.evidence, id)
      && IsLive(db.targets, Reporter(Prepared(s), id).target)
  {
    SnapshotMeaning(db, s);
    var db2 := ApplySnapshot(db, s).value;
    SnapshotKeepsConnectors(db, s);
    if id in ReportedIds(s) {
      assert Decided(db, db2.evidence, id, Reporter(Prepared(s), id).target);
    } else {
      forall e | e in db2.evidence && db2.evidence[e].identity == id && db2.evidence[e].active
        ensures !Observes(s, db2.evidence[e])
      {
        assert e in db.evidence && Observes(s, db2.evidence[e]) == Observes(s, db.evidence[e]);
      }
    }
  }

  lemma SnapshotKeepsConnectors(db: Db, s: Snapshot)
    requires Inv(db) && Linked(db) && ApplySnapshot(db, s).Ok?
    ensures var db2 := ApplySnapshot(db, s).value;
      forall e :: e in db.evidence ==>
        && e in db2.evidence && Observes(s, db2.evidence[e]) == Observes(s, db.evidence[e])
        && db2.evidence[e].identity == db.evidence[e].identity
  {
    var pass := Pass(db, {}, {}, {});
    var out := ApplyFacts(pass, Prepared(s), s.observedAt).value;
    ApplyFactsReport(pass, Prepared(s), s.observedAt);
    FinishConcludes(out, s);
    forall e | e in db.evidence
      ensures Concluded(s, out.seen, out.db.evidence[e], Finish(out, s).evidence[e])
    {
    }
  }
}
