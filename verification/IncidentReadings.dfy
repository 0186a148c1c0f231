/** Readings told from the rows: who speaks for an identity, what a snapshot leaves, when it is refused, what a check reports. */
module IncidentReadings {
  import opened Common
  import opened Trigger
  import opened IncidentModel
  import opened IncidentCycle
  import opened IncidentSnapshot
  import opened IncidentInvariants
  import opened IncidentAggregates
  import opened IncidentIdentities
  import opened IncidentTransactions
  import opened IncidentEvolution
  import opened IncidentReports
  import opened IncidentSequence
  import opened IncidentVoices

  // ----- Who speaks for an identity -----

  /** When the condition of signal `k` opened: at its own date, or at the reading. */
  function OpeningOf(s: Snapshot, k: nat): Time
    requires k < |s.signals|
  {
    if s.signals[k].dated then s.signals[k].fact.openedAt else s.observedAt
  }

  /** Signal `k` reports the condition `key` of `scope`. */
  predicate Mentions(s: Snapshot, k: nat, scope: string, key: string)
  {
    k < |s.signals| && s.signals[k].fact.identity.scope == scope && s.signals[k].fact.identity.key == key
  }

  /** Of the signals that report it, signal `k` opened first, and comes first among those that opened with it. */
  ghost predicate Speaks(s: Snapshot, k: nat, scope: string, key: string)
  {
    && Mentions(s, k, scope, key)
    && forall j: nat :: Mentions(s, j, scope, key) ==> OpeningOf(s, k) < OpeningOf(s, j) || (OpeningOf(s, k) == OpeningOf(s, j) && k <= j)
  }

  /** The fact a signal is recorded as: the origin and the connector are those of the snapshot. */
  function FactOf(s: Snapshot, k: nat): Fact
    requires k < |s.signals|
  {
    var f := s.signals[k].fact;
    f.(identity := Identity(s.origin, f.identity.scope, f.identity.key), connector := s.connector, openedAt := OpeningOf(s, k))
  }

  function FirstOf(facts: seq<Fact>, id: Identity): Option<Fact>
  {
    if facts == [] then None
    else
      var init, last := facts[..|facts| - 1], facts[|facts| - 1];
      if FirstOf(init, id).Some? then FirstOf(init, id) else if last.identity == id then Some(last) else None
  }

  lemma {:induction false} FirstOfMeaning(facts: seq<Fact>, id: Identity)
    ensures FirstOf(facts, id).None? <==> forall k :: 0 <= k < |facts| ==> facts[k].identity != id
    ensures FirstOf(facts, id).Some? ==> FirstOf(facts, id).value in facts && FirstOf(facts, id).value.identity == id
    ensures forall k :: 0 <= k < |facts| && facts[k].identity == id && (forall j :: 0 <= j < k ==> facts[j].identity != id) ==>
      FirstOf(facts, id) == Some(facts[k])
  {
    if facts != [] {
      FirstOfMeaning(facts[..|facts| - 1], id);
    }
  }

  lemma {:induction false} ReporterIsFirstOf(facts: seq<Fact>, id: Identity)
    requires id in IdentitiesOf(facts)
    ensures FirstOf(facts, id) == Some(Reporter(facts, id))
    decreases |facts|
  {
    hide FirstOf;
    FirstOfMeaning(facts, id);
    if facts[0].identity != id {
      IdentitiesCons(facts);
      ReporterIsFirstOf(facts[1..], id);
      FirstOfRest(facts, id);
    }
  }

  lemma FirstOfRest(facts: seq<Fact>, id: Identity)
    requires id in IdentitiesOf(facts) && facts[0].identity != id
    ensures FirstOf(facts, id) == FirstOf(facts[1..], id)
  {
    hide FirstOf;
    FirstOfMeaning(facts, id);
    FirstOfMeaning(facts[1..], id);
    FirstPosition(facts, id);
    var k :| 0 <= k < |facts| && facts[k].identity == id && forall j :: 0 <= j < k ==> facts[j].identity != id;
    assert facts[1..][k - 1] == facts[k];
    assert forall j :: 0 <= j < k - 1 ==> facts[1..][j] == facts[j + 1];
  }

  lemma {:induction false} FirstPosition(facts: seq<Fact>, id: Identity)
    requires id in IdentitiesOf(facts)
    ensures exists k :: 0 <= k < |facts| && facts[k].identity == id && forall j :: 0 <= j < k ==> facts[j].identity != id
    decreases |facts|
  {
    if facts[0].identity != id {
      IdentitiesCons(facts);
      FirstPosition(facts[1..], id);
      var k :| 0 <= k < |facts[1..]| && facts[1..][k].identity == id && forall j :: 0 <= j < k ==> facts[1..][j].identity != id;
      assert facts[k + 1].identity == id;
      forall j | 0 <= j < k + 1
        ensures facts[j].identity != id
      {
        assert j > 0 ==> facts[j] == facts[1..][j - 1];
      }
    }
  }

  /** Looking at the facts tied with the first one of an identity finds the same. */
  lemma {:induction false} FirstOfTied(facts: seq<Fact>, id: Identity, f: Fact)
    ensures FirstOf(facts, id).None? ==> FirstOf(TiedWith(facts, f), id).None?
    ensures FirstOf(facts, id).Some? && Tied(FirstOf(facts, id).value, f) ==> FirstOf(TiedWith(facts, f), id) == FirstOf(facts, id)
  {
    hide Before;
    if facts != [] {
      var init, last := facts[..|facts| - 1], facts[|facts| - 1];
      FirstOfTied(init, id, f);
      assert TiedWith(init, f) + [] == TiedWith(init, f);
      FirstOfSnoc(TiedWith(init, f), last, id);
    }
  }

  lemma FirstOfSnoc(facts: seq<Fact>, last: Fact, id: Identity)
    ensures FirstOf(facts + [last], id) ==
      if FirstOf(facts, id).Some? then FirstOf(facts, id) else if last.identity == id then Some(last) else None
  {
    assert (facts + [last])[..|facts|] == facts;
  }

  lemma {:induction false} TiedMembers(facts: seq<Fact>, f: Fact)
    ensures forall x :: x in TiedWith(facts, f) ==> x in facts && Tied(x, f)
  {
    hide Before;
    if facts != [] {
      TiedMembers(facts[..|facts| - 1], f);
    }
  }

  lemma {:induction false} FirstTied(facts: seq<Fact>, k: nat, id: Identity)
    requires k < |facts| && facts[k].identity == id
    requires forall j :: 0 <= j < k && facts[j].identity == id ==> !Tied(facts[j], facts[k])
    ensures FirstOf(TiedWith(facts, facts[k]), id) == Some(facts[k])
  {
    hide Before;
    var f, init, last := facts[k], facts[..|facts| - 1], facts[|facts| - 1];
    if k == |facts| - 1 {
      TiedSelf(f);
      TiedMembers(init, f);
      FirstOfMeaning(TiedWith(init, f), id);
      FirstOfSnoc(TiedWith(init, f), last, id);
    } else {
      FirstTied(init, k, id);
      assert TiedWith(init, f) + [] == TiedWith(init, f);
      FirstOfSnoc(TiedWith(init, f), last, id);
    }
  }

  lemma TiedSelf(f: Fact)
    ensures Tied(f, f)
  {
    if Before(f, f) {
      BeforeAsymmetric(f, f);
    }
  }

  lemma SameOpeningIsTied(a: Fact, b: Fact)
    requires a.identity == b.identity
    ensures Tied(a, b) <==> a.openedAt == b.openedAt
  {
    TiedSelf(a);
  }

  /** The report that counts for an identity is that of the signal that speaks for it. */
  lemma SpeakerIsReporter(s: Snapshot, k: nat, scope: string, key: string)
    requires Speaks(s, k, scope, key)
    ensures var id := Identity(s.origin, scope, key); id in ReportedIds(s) && Reporter(Prepared(s), id) == FactOf(s, k)
  {
    hide Before, Prepared, Tied;
    var raw, id := RawFacts(s), Identity(s.origin, scope, key);
    var f := raw[k];
    assert f == FactOf(s, k) && f.identity == id;
    ReportedIdsAreSignals(s);
    ReporterIsEarliest(s, id, k);
    PreparedIsSorted(s, f);
    var r := Reporter(Prepared(s), id);
    var j := RawPosition(s, r);
    assert Mentions(s, j, scope, key) && OpeningOf(s, j) == r.openedAt;
    SameOpeningIsTied(r, f);
    ReporterIsFirstOf(Prepared(s), id);
    FirstOfTied(Prepared(s), id, f);
    forall i: nat | i < k && raw[i].identity == id
      ensures !Tied(raw[i], f)
    {
      assert Mentions(s, i, scope, key) && OpeningOf(s, i) == raw[i].openedAt;
      SameOpeningIsTied(raw[i], f);
    }
    FirstTied(raw, k, id);
  }

  lemma RawPosition(s: Snapshot, f: Fact) returns (j: nat)
    requires f in Prepared(s)
    ensures j < |RawFacts(s)| && RawFacts(s)[j] == f
  {
    hide Prepared;
    PreparedIsSorted(s, f);
    assert f in multiset(RawFacts(s));
    j :| 0 <= j < |RawFacts(s)| && RawFacts(s)[j] == f;
  }

  /** Facts are applied from the earliest opening on; those that opened together in the order of scope and key. */
  lemma AppliedInOrder(s: Snapshot)
    ensures var facts := Prepared(s);
      && |facts| == |s.signals|
      && forall k, l :: 0 <= k < l < |facts| ==>
        && facts[k].openedAt <= facts[l].openedAt
        && (facts[k].openedAt == facts[l].openedAt ==>
              !Less(facts[l].identity.scope + "\0" + facts[l].identity.key, facts[k].identity.scope + "\0" + facts[k].identity.key))
  {
    SortInOrder(RawFacts(s));
    SortPermutes(RawFacts(s));
    assert |multiset(Prepared(s))| == |multiset(RawFacts(s))|;
    forall k, l | 0 <= k < l < |Prepared(s)|
      ensures !Before(Prepared(s)[l], Prepared(s)[k])
    {
    }
  }

  // ----- What a committed snapshot leaves -----

  /** An invalidation of the row is in force. */
  predicate RuledOut(row: Evidence) { row.invalidatedAt.Some? && row.rearmedAt.None? }

  ghost predicate IsRuledOut(db: Db, id: Identity)
  {
    exists e :: e in db.evidence && db.evidence[e].identity == id && RuledOut(db.evidence[e])
  }

  predicate ActiveAt(db: Db, e: Id, id: Identity)
  {
    e in db.evidence && db.evidence[e].active && db.evidence[e].identity == id
  }

  ghost predicate IsActive(db: Db, id: Identity) { exists e :: ActiveAt(db, e, id) }

  /** The snapshot reports the identity. */
  ghost predicate IsReported(s: Snapshot, id: Identity)
  {
    id.origin == s.origin && exists k: nat :: Mentions(s, k, id.scope, id.key)
  }

  lemma ReportedMeans(s: Snapshot, id: Identity)
    ensures id in ReportedIds(s) <==> IsReported(s, id)
  {
    hide Prepared;
    var raw := RawFacts(s);
    ReportedIdsAreSignals(s);
    if id in IdentitiesOf(raw) {
      var k :| 0 <= k < |raw| && raw[k].identity == id;
      assert Mentions(s, k, id.scope, id.key);
    }
    if IsReported(s, id) {
      var k: nat :| Mentions(s, k, id.scope, id.key);
      assert raw[k].identity == id;
    }
  }

  /** The speaker of a reported identity. */
  lemma SpeakerExists(s: Snapshot, scope: string, key: string) returns (k: nat)
    requires exists j: nat :: Mentions(s, j, scope, key)
    ensures Speaks(s, k, scope, key)
  {
    var j: nat :| Mentions(s, j, scope, key);
    k := BestUpTo(s, scope, key, |s.signals|, j);
  }

  lemma {:induction false} BestUpTo(s: Snapshot, scope: string, key: string, n: nat, j: nat) returns (k: nat)
    requires n <= |s.signals| && j < n && Mentions(s, j, scope, key)
    ensures k < n && Mentions(s, k, scope, key)
    ensures forall i: nat :: i < n && Mentions(s, i, scope, key) ==>
      OpeningOf(s, k) < OpeningOf(s, i) || (OpeningOf(s, k) == OpeningOf(s, i) && k <= i)
    decreases n
  {
    if i: nat :| i < n - 1 && Mentions(s, i, scope, key) {
      k := BestUpTo(s, scope, key, n - 1, i);
      if Mentions(s, n - 1, scope, key) && OpeningOf(s, n - 1) < OpeningOf(s, k) {
        k := n - 1;
      }
    } else {
      k := j;
    }
  }

  lemma RuledOutMeans(db: Db, id: Identity)
    ensures IsRuledOut(db, id) <==> Suppressed(db.evidence, id)
    ensures forall e :: e in db.evidence ==> (RuledOut(db.evidence[e]) <==> Unarmed(db.evidence[e]))
  {
    if e :| e in db.evidence && db.evidence[e].identity == id && RuledOut(db.evidence[e]) {
      assert Unarmed(db.evidence[e]);
    }
    if e :| e in db.evidence && Unarmed(db.evidence[e]) && db.evidence[e].identity == id {
      assert RuledOut(db.evidence[e]);
    }
  }

  /** The row repeats what the fact says, on an incident of the nature of the fact. */
  predicate Repeats(db: Db, e: Id, f: Fact)
  {
    && e in db.evidence && db.evidence[e].target == f.target && db.evidence[e].severity == f.severity
    && db.evidence[e].upstream == f.upstream && db.evidence[e].incident in db.incidents
    && var nature := db.incidents[db.evidence[e].incident].nature;
    nature.key == f.nature.key ||
      (nature.eligible && f.nature.eligible && nature.scope == f.nature.scope && nature.namespace == f.nature.namespace &&
       nature.fingerprint == f.nature.fingerprint)
  }

  /** What was not reported: closed and re-armed within the region of the snapshot, left alone elsewhere. */
  predicate LeftAlone(s: Snapshot, row: Evidence, row2: Evidence)
  {
    // a complete reading speaks for its connector, a partial one for the scopes it observed
    var inside := row.identity.origin == s.origin && row.connector == s.connector && (s.complete || row.identity.scope in s.scopes);
    && (row2.active <==> row.active && !inside) && (row.active && inside ==> row2.resolvedAt == Some(s.observedAt))
    && (RuledOut(row) ==> (RuledOut(row2) <==> !inside))
    // re-armed at the reading, but never before it was ruled out
    && (RuledOut(row) && inside ==>
          row2.rearmedAt == Some(if s.observedAt < row.invalidatedAt.value then row.invalidatedAt.value else s.observedAt))
  }

  /**
   * A reported identity is active exactly if it is not ruled out and its speaker's target is live, and then says what its
   * speaker says; every other row is closed and re-armed if the snapshot speaks for it, and left alone if not.
   */
  lemma SnapshotOnRows(db: Db, s: Snapshot)
    requires Inv(db) && Linked(db) && ApplySnapshot(db, s).Ok?
    ensures var db2 := ApplySnapshot(db, s).value;
      && (forall k: nat, scope, key :: Speaks(s, k, scope, key) ==>
            var id, f := Identity(s.origin, scope, key), FactOf(s, k);
            && (IsActive(db2, id) <==> !IsRuledOut(db, id) && f.target in db.targets && db.targets[f.target] == Live)
            && (forall e :: ActiveAt(db2, e, id) ==> Repeats(db2, e, f)))
      && (forall e :: e in db.evidence && !IsReported(s, db.evidence[e].identity) ==>
            e in db2.evidence && LeftAlone(s, db.evidence[e], db2.evidence[e]))
      && (forall e :: e in db.evidence && IsReported(s, db.evidence[e].identity) && RuledOut(db.evidence[e]) ==>
            e in db2.evidence && RuledOut(db2.evidence[e]))
      && (forall e :: e in db2.evidence && e !in db.evidence ==> IsReported(s, db2.evidence[e].identity))
  {
    hide ApplySnapshot, ReportedIds, Reporter, Prepared, Speaks, FactOf, IsReported, IsRuledOut, Inv, LeftAlone;
    SpeakersAreSignals(s);
    var db2 := ApplySnapshot(db, s).value;
    SnapshotMeaning(db, s);
    SnapshotInv(db, s);
    UnreportedRows(db, s);
    forall id
      ensures id in ReportedIds(s) <==> IsReported(s, id)
      ensures IsRuledOut(db, id) <==> Suppressed(db.evidence, id)
    {
      ReportedMeans(s, id);
      RuledOutMeans(db, id);
    }
    forall k: nat, scope, key | k < |s.signals| && Speaks(s, k, scope, key)
      ensures var id, f := Identity(s.origin, scope, key), FactOf(s, k);
        && (IsActive(db2, id) <==> !IsRuledOut(db, id) && f.target in db.targets && db.targets[f.target] == Live)
        && (forall e :: ActiveAt(db2, e, id) ==> Repeats(db2, e, f))
    {
      SpokenFor(db, s, k, scope, key);
    }
  }

  lemma FinishedRow(pass: Pass, s: Snapshot, e: Id)
    requires e in pass.db.evidence && pass.db.evidence[e].identity !in pass.seen
    ensures e in Finish(pass, s).evidence && LeftAlone(s, pass.db.evidence[e], Finish(pass, s).evidence[e])
  {
    var gone := Gone(pass.db, s, pass.seen);
    assert Finish(pass, s).evidence == Rearm(ResolveRows(pass.db, gone, s.observedAt), s, pass.seen, s.observedAt).evidence;
  }

  lemma UnreportedRows(db: Db, s: Snapshot)
    requires Inv(db) && Linked(db) && ApplySnapshot(db, s).Ok?
    ensures forall e :: e in db.evidence && db.evidence[e].identity !in ReportedIds(s) ==>
      e in ApplySnapshot(db, s).value.evidence && LeftAlone(s, db.evidence[e], ApplySnapshot(db, s).value.evidence[e])
  {
    hide ApplyFacts, Finish, LeftAlone, Prepared;
    var pass := Pass(db, {}, {}, {});
    var out := ApplyFacts(pass, Prepared(s), s.observedAt).value;
    ApplyFactsReport(pass, Prepared(s), s.observedAt);
    assert out.seen == ReportedIds(s) && ReportedIds(s) - {} == ReportedIds(s);
    forall e | e in db.evidence && db.evidence[e].identity !in ReportedIds(s)
      ensures e in Finish(out, s).evidence && LeftAlone(s, db.evidence[e], Finish(out, s).evidence[e])
    {
      FinishedRow(out, s, e);
      SameForReading(s, db.evidence[e], out.db.evidence[e], Finish(out, s).evidence[e]);
    }
  }

  lemma SameForReading(s: Snapshot, row: Evidence, row1: Evidence, row2: Evidence)
    requires LeftAlone(s, row1, row2) && row1.identity == row.identity && row1.connector == row.connector
    requires row1.active == row.active && row1.invalidatedAt == row.invalidatedAt && row1.rearmedAt == row.rearmedAt
    ensures LeftAlone(s, row, row2)
  {
  }

  lemma SpeakersAreSignals(s: Snapshot)
    ensures forall k: nat, scope, key :: Speaks(s, k, scope, key) ==> k < |s.signals|
  {
  }

  lemma SpokenFor(db: Db, s: Snapshot, k: nat, scope: string, key: string)
    requires Inv(db) && Linked(db) && ApplySnapshot(db, s).Ok? && Speaks(s, k, scope, key)
    ensures var db2, id, f := ApplySnapshot(db, s).value, Identity(s.origin, scope, key), FactOf(s, k);
      && (IsActive(db2, id) <==> !IsRuledOut(db, id) && f.target in db.targets && db.targets[f.target] == Live)
      && (forall e :: ActiveAt(db2, e, id) ==> Repeats(db2, e, f))
  {
    hide ApplySnapshot, Reporter, Prepared, Speaks, FactOf;
    var db2, id := ApplySnapshot(db, s).value, Identity(s.origin, scope, key);
    SpeakerIsReporter(s, k, scope, key);
    RuledOutMeans(db, id);
    SnapshotMeaning(db, s);
    SnapshotInv(db, s);
    ActiveMeans(db2, id);
    assert Decided(db, db2.evidence, id, Reporter(Prepared(s), id).target);
    if IsActive(db2, id) {
      SnapshotRecords(db, s, id);
      var x :| Says(db2, x, Reporter(Prepared(s), id));
      OneActive(db2, x, id);
    }
  }

  lemma ActiveMeans(db: Db, id: Identity)
    ensures IsActive(db, id) <==> HasActive(db.evidence, id)
  {
    if e :| ActiveAt(db, e, id) {
      assert e in db.evidence && db.evidence[e].active && db.evidence[e].identity == id;
    }
    if e :| e in db.evidence && db.evidence[e].active && db.evidence[e].identity == id {
      assert ActiveAt(db, e, id);
    }
  }

  lemma OneActive(db: Db, x: Id, id: Identity)
    requires Inv(db) && ActiveAt(db, x, id)
    ensures forall e :: ActiveAt(db, e, id) ==> e == x
  {
  }

  // ----- When a snapshot is refused -----

  lemma FactSucceeds(db: Db, f: Fact, now: Time)
    requires Shape(db) && Linked(db) && Identities(db)
    ensures ApplyFact(db, f, now).Failed? <==> !(Complete(f) && (f.target in db.targets || Suppressed(db.evidence, f.identity)))
  {
    hide OpenImpact, AddEvidence, Refresh, Retire, Complete, IncidentRow, ImpactRow;
    if Complete(f) {
      match ActiveRow(db.evidence, f.identity)
      case None =>
      case Some(e) =>
        assert EvidenceRow(db.evidence[e]) && db.impacts[db.evidence[e].impact].target == db.evidence[e].target;
        RetireShape(db, e, now);
        RetireOutcome(db, e, now);
        SuppressedAfterRetire(db, e, f.identity, now);
    }
  }

  predicate Recordable(db: Db, f: Fact)
  {
    Complete(f) && (f.target in db.targets || Suppressed(db.evidence, f.identity))
  }

  lemma {:induction false} FactsSucceed(pass: Pass, facts: seq<Fact>, now: Time)
    requires PassOk(pass) && Linked(pass.db)
    ensures ApplyFacts(pass, facts, now).Ok? <==>
      forall id :: id in IdentitiesOf(facts) && id !in pass.seen ==> Recordable(pass.db, Reporter(facts, id))
    decreases |facts|
  {
    hide ApplyFact, Complete, Suppressed, PassOk, ReportedOne;
    if facts != [] {
      var f := facts[0];
      IdentitiesCons(facts);
      PassOkParts(pass);
      FactSucceeds(pass.db, f, now);
      if f.identity in pass.seen {
        FactsSucceed(pass, facts[1..], now);
        RestReporters(facts, pass.seen);
      } else if ApplyOne(pass, f, now).Ok? {
        var mid := ApplyOne(pass, f, now).value;
        ApplyOneOk(pass, f, now);
        ApplyOneReport(pass, f, now);
        SameMarks(pass, f, mid);
        FactsSucceed(mid, facts[1..], now);
        RestReporters(facts, mid.seen);
        assert Reporter(facts, f.identity) == f;
      } else {
        assert Reporter(facts, f.identity) == f;
      }
    }
  }

  lemma PassOkParts(pass: Pass)
    requires PassOk(pass)
    ensures Shape(pass.db) && Identities(pass.db)
  {
  }

  lemma RestReporters(facts: seq<Fact>, seen: set<Identity>)
    requires facts != [] && facts[0].identity in seen
    ensures forall id :: id !in seen ==> (id in IdentitiesOf(facts) <==> id in IdentitiesOf(facts[1..]))
    ensures forall id :: id !in seen && id in IdentitiesOf(facts) ==> Reporter(facts, id) == Reporter(facts[1..], id)
  {
    IdentitiesCons(facts);
  }

  lemma SameMarks(pass: Pass, f: Fact, mid: Pass)
    requires ReportedOne(pass, f, mid)
    ensures mid.seen == pass.seen + {f.identity} && mid.db.targets == pass.db.targets
    ensures forall id :: Suppressed(mid.db.evidence, id) <==> Suppressed(pass.db.evidence, id)
  {
    forall id
      ensures Suppressed(mid.db.evidence, id) <==> Suppressed(pass.db.evidence, id)
    {
      KeepsMarksSuppressed(pass.db.evidence, mid.db.evidence, {f.identity}, id);
    }
  }

  /** The fact says what it has to, on a target that exists or about a condition that is ruled out anyway. */
  ghost predicate Sound(db: Db, f: Fact)
  {
    && !Blank(f.identity.scope) && !Blank(f.identity.key) && !Blank(f.target) && !Blank(f.nature.key) && !Blank(f.name)
    && 0 <= f.severity <= 3 && (f.target in db.targets || IsRuledOut(db, f.identity))
  }

  /** A snapshot is committed exactly if its worker holds the lease and every speaker is sound. */
  lemma SnapshotSucceeds(db: Db, s: Snapshot)
    requires Inv(db) && Linked(db)
    ensures ApplySnapshot(db, s).Ok? <==> s.leaseValid && forall k: nat, scope, key :: Speaks(s, k, scope, key) ==> Sound(db, FactOf(s, k))
    ensures ApplySnapshot(db, s) == Err(LeaseLost) <==> !s.leaseValid
  {
    hide Prepared, Reporter, ApplyFacts, Speaks, FactOf, Sound, Recordable;
    var facts := Prepared(s);
    FactsSucceed(Pass(db, {}, {}, {}), facts, s.observedAt);
    SpeakersAreSignals(s);
    forall k: nat, scope, key | k < |s.signals| && Speaks(s, k, scope, key)
      ensures var id := Identity(s.origin, scope, key);
        && id in IdentitiesOf(facts) && Reporter(facts, id) == FactOf(s, k) && (Sound(db, FactOf(s, k)) <==> Recordable(db, FactOf(s, k)))
    {
      SpeakerIsReporter(s, k, scope, key);
      SoundMeans(db, FactOf(s, k));
    }
    forall id | id in IdentitiesOf(facts)
      ensures exists k: nat :: Speaks(s, k, id.scope, id.key) && id == Identity(s.origin, id.scope, id.key)
    {
      ReportedMeans(s, id);
      var k := SpeakerExists(s, id.scope, id.key);
    }
    NeverLeaseLost(Pass(db, {}, {}, {}), facts, s.observedAt);
  }

  lemma SoundMeans(db: Db, f: Fact)
    ensures Sound(db, f) <==> Recordable(db, f)
  {
    RuledOutMeans(db, f.identity);
  }

  lemma {:induction false} NeverLeaseLost(pass: Pass, facts: seq<Fact>, now: Time)
    requires Linked(pass.db)
    ensures ApplyFacts(pass, facts, now) != Err(LeaseLost)
    decreases |facts|
  {
    hide Complete, OpenImpact, AddEvidence, Refresh, Retire;
    if facts != [] && ApplyOne(pass, facts[0], now).Ok? {
      NeverLeaseLost(ApplyOne(pass, facts[0], now).value, facts[1..], now);
    }
  }

  // ----- What a check reports -----

  /** The condition a check reports about. */
  function CheckIdentity(source: string): Identity { Identity(Native, source, "availability") }

  /**
   * An observation counts in the streaks of its check. If it triggers, the condition of the check is active on its target
   * with the severity of the check, unless ruled out, and archived or unknown targets refuse it; if it recovers the
   * condition is over; otherwise no row changes.
   */
  lemma CheckOnRows(db: Db, o: Observation)
    requires Inv(db) && Linked(db)
    ensures var r, id := ApplyNative(db, o), CheckIdentity(o.source);
      && (o.source !in db.sources ==> r == Err(NotFound))
      && (o.source in db.sources ==>
            var source := db.sources[o.source];
            var decision := Evaluate(source.policy, source.streaks, o.outcome);
            && (r.Ok? ==> r.value.sources == db.sources[o.source := source.(streaks := decision.streaks)] && r.value.targets == db.targets)
            && (r.Ok? && decision.triggered ==>
                  && (IsActive(r.value, id) <==> !IsRuledOut(db, id))
                  && (forall e :: ActiveAt(r.value, e, id) ==>
                        Repeats(r.value, e, Fact(id, "", "", o.source, o.target, CanonicalNature("availability"), o.name, source.severity,
                                                 o.observedAt, false, 0))))
            && (decision.triggered && !IsRuledOut(db, id) && !(o.target in db.targets && db.targets[o.target] == Live) ==> r.Err?)
            && (decision.recovered && !decision.triggered ==> r.Ok? && !IsActive(r.value, id) && !IsRuledOut(r.value, id))
            && (!decision.recovered && !decision.triggered ==> r.Ok? && r.value.evidence == db.evidence && r.value.impacts == db.impacts))
  {
    hide Evaluate, NativeEffect, IsActive;
    if o.source in db.sources {
      var source := db.sources[o.source];
      var decision := Evaluate(source.policy, source.streaks, o.outcome);
      var counted := Counted(db, o.source, decision.streaks);
      OutsidePartial(db, counted, {}, {});
      CheckEffect(counted, o, source.severity, decision);
      if ApplyNative(db, o).Ok? {
        NativeInv(db, o);
      }
    }
  }

  lemma CheckEffect(db: Db, o: Observation, severity: Severity, decision: Decision)
    requires Inv(db) && Linked(db)
    ensures var r, id := NativeEffect(db, o, severity, decision), CheckIdentity(o.source);
      && (r.Ok? ==> r.value.sources == db.sources && r.value.targets == db.targets)
      && (r.Ok? && decision.triggered ==>
            && (IsActive(r.value, id) <==> !IsRuledOut(db, id))
            && (forall e :: ActiveAt(r.value, e, id) ==> Repeats(r.value, e, NativeFact(o, severity))))
      && (decision.triggered && !IsRuledOut(db, id) && !(o.target in db.targets && db.targets[o.target] == Live) ==> r.Err?)
      && (decision.recovered && !decision.triggered ==> r.Ok? && !IsActive(r.value, id) && !IsRuledOut(r.value, id))
      && (!decision.recovered && !decision.triggered ==> r.Ok? && r.value.evidence == db.evidence && r.value.impacts == db.impacts)
  {
    hide ApplyFact, Settle, AdvanceDue, RecoverNative, Inv, IsRuledOut;
    if decision.triggered {
      TriggerOnRows(db, NativeFact(o, severity), o.observedAt);
    } else if decision.recovered {
      RecoveryOnRows(db, o.source, o.observedAt);
    } else {
      AdvanceOnRows(db, o.observedAt);
    }
  }

  lemma AdvanceOnRows(db: Db, now: Time)
    ensures var db2 := AdvanceDue(db, now);
      db2.sources == db.sources && db2.targets == db.targets && db2.evidence == db.evidence && db2.impacts == db.impacts
  {
  }

  lemma SettleOnRows(db: Db, ps: set<Id>, ns: set<Id>, now: Time)
    ensures var db2 := Settle(db, ps, ns, now); db2.sources == db.sources && db2.targets == db.targets && db2.evidence == db.evidence
  {
  }

  lemma TriggerOnRows(db: Db, f: Fact, now: Time)
    requires Inv(db) && Linked(db)
    ensures var r := ApplyFact(db, f, now);
      && (!r.Failed? ==> r.db.sources == db.sources && r.db.targets == db.targets)
      && (r.Touched? ==>
            && !IsRuledOut(db, f.identity) && f.target in db.targets && db.targets[f.target] == Live
            && var db2 := Settle(r.db, {r.impact}, {r.incident}, now);
            && db2.sources == db.sources && db2.targets == db.targets && IsActive(db2, f.identity)
            && forall e :: ActiveAt(db2, e, f.identity) ==> Repeats(db2, e, f))
      && (r.Ignored? ==> IsRuledOut(db, f.identity) && !IsActive(r.db, f.identity))
      && (!IsRuledOut(db, f.identity) && !(f.target in db.targets && db.targets[f.target] == Live) ==> r.Skipped? || r.Failed?)
  {
    hide ApplyFact, Settle, Says, KeepsVoices, UniqueIdentity;
    var r := ApplyFact(db, f, now);
    ApplyFactOutcome(db, f, now);
    FactSources(db, f, now);
    RuledOutMeans(db, f.identity);
    ApplyFactRecords(db, f, {}, now);
    if r.Touched? {
      var x :| Says(r.db, x, f);
      SettleOnRows(r.db, {r.impact}, {r.incident}, now);
      SettleNatures(r.db, {r.impact}, {r.incident}, now);
      TouchedOnRows(db, f, r.db, now);
      SaysOnRow(r.db, Settle(r.db, {r.impact}, {r.incident}, now), x, f);
    }
    if r.Ignored? {
      ActiveMeans(r.db, f.identity);
    }
  }

  /** A touched identity was neither ruled out nor off its target. */
  lemma TouchedOnRows(db: Db, f: Fact, db2: Db, now: Time)
    requires Inv(db) && Linked(db) && ApplyFact(db, f, now).Touched? && ApplyFact(db, f, now).db == db2 && Identities(db2)
    requires FactOutcome(db, f, ApplyFact(db, f, now))
    ensures !Suppressed(db.evidence, f.identity) && f.target in db.targets && db.targets[f.target] == Live
  {
  }

  lemma SaysOnRow(db: Db, db2: Db, x: Id, f: Fact)
    requires Says(db, x, f) && UniqueIdentity(db.evidence) && db2.evidence == db.evidence && db2.incidents.Keys == db.incidents.Keys
    requires forall i :: i in db.incidents ==> db2.incidents[i].nature == db.incidents[i].nature
    ensures IsActive(db2, f.identity)
    ensures forall e :: ActiveAt(db2, e, f.identity) ==> Repeats(db2, e, f)
  {
    assert ActiveAt(db2, x, f.identity);
  }

  lemma OpenImpactSources(db: Db, f: Fact, now: Time)
    requires Linked(db) && ValidSeverity(f.severity)
    ensures OpenImpact(db, f, now).db.sources == db.sources
  {
    hide EvidenceWindow, Hosts, Propagates, Resumable;
  }

  lemma AddEvidenceSources(db: Db, f: Fact, i: Id, p: Id, now: Time)
    requires Linked(db) && ValidSeverity(f.severity) && i in db.incidents
    ensures AddEvidence(db, f, i, p, now).sources == db.sources
  {
    hide AckFromEvidence;
    if f.upstream {
      AckFromEvidenceOnly(InsertEvidence(db, f, i, p), i, now);
    }
  }

  lemma RefreshSources(db: Db, e: Id, f: Fact, now: Time)
    requires Linked(db) && ValidSeverity(f.severity) && e in db.evidence
    ensures Refresh(db, e, f, now).sources == db.sources
  {
    hide AckFromEvidence;
    if f.upstream {
      AckFromEvidenceOnly(RefreshRow(db, e, f), db.evidence[e].incident, now);
    }
  }

  lemma OpenFactSources(db: Db, f: Fact, now: Time)
    requires Linked(db) && ValidSeverity(f.severity)
    ensures var r := OpenFact(db, f, now); !r.Failed? ==> r.db.sources == db.sources
  {
    hide OpenImpact, AddEvidence;
    if OpenFact(db, f, now).Touched? {
      var o := OpenImpact(db, f, now);
      OpenImpactSources(db, f, now);
      AddEvidenceSources(o.db, f, o.incident, o.impact, now);
    }
  }

  lemma FactSources(db: Db, f: Fact, now: Time)
    requires Linked(db)
    ensures var r := ApplyFact(db, f, now); !r.Failed? ==> r.db.sources == db.sources
  {
    hide OpenFact, Refresh, Settle;
    if Complete(f) {
      match ActiveRow(db.evidence, f.identity)
      case None => OpenFactSources(db, f, now);
      case Some(e) =>
        RefreshSources(db, e, f, now);
        SettleOnRows(ResolveRows(db, {e}, now), {db.evidence[e].impact}, {db.evidence[e].incident}, now);
        RetireLinks(db, e, now);
        OpenFactSources(Retire(db, e, now), f, now);
    }
  }

  lemma RetireLinks(db: Db, e: Id, now: Time)
    requires Linked(db) && e in db.evidence
    ensures Linked(Retire(db, e, now))
  {
  }

  /** Rows once the only active one of an identity is closed. */
  lemma ClosedOnRows(db: Db, db2: Db, e: Id, id: Identity, now: Time)
    requires Inv(db) && ActiveAt(db, e, id) && db2.evidence == ResolveRows(db, {e}, now).evidence
    ensures !IsActive(db2, id) && !IsRuledOut(db2, id)
  {
    hide Inv;
    OneActive(db, e, id);
    NotRuledOut(db, e, id);
    forall x | ActiveAt(db2, x, id)
      ensures ActiveAt(db, x, id) && x != e
    {
    }
    forall x | x in db2.evidence && db2.evidence[x].identity == id
      ensures !RuledOut(db2.evidence[x])
    {
      assert RuledOut(db2.evidence[x]) == RuledOut(db.evidence[x]) && db.evidence[x].identity == id;
    }
  }

  lemma RearmedOnRows(db: Db, db2: Db, id: Identity, now: Time)
    requires ActiveRow(db.evidence, id).None? && db2.evidence == RearmIdentity(db, id, now).evidence
    ensures !IsActive(db2, id) && !IsRuledOut(db2, id)
  {
    forall x | x in db2.evidence && db2.evidence[x].identity == id
      ensures !RuledOut(db2.evidence[x]) && !db2.evidence[x].active
    {
      assert x in db.evidence && db.evidence[x].identity == id;
    }
  }

  lemma RecoveryOnRows(db: Db, source: string, now: Time)
    requires Inv(db) && Linked(db)
    ensures var db2, id := RecoverNative(db, source, now), CheckIdentity(source);
      db2.sources == db.sources && db2.targets == db.targets && !IsActive(db2, id) && !IsRuledOut(db2, id)
  {
    hide Settle, AdvanceDue, Inv, IsActive, IsRuledOut, ResolveRows, RearmIdentity;
    var id := CheckIdentity(source);
    match ActiveRow(db.evidence, NativeIdentity(source))
    case Some(e) =>
      KeptTables(db, {e}, now);
      SettleOnRows(ResolveRows(db, {e}, now), ImpactsTouching(db, {e}), IncidentsTouching(db, {e}), now);
      ClosedOnRows(db, RecoverNative(db, source, now), e, id, now);
    case None =>
      RearmedTables(db, id, now);
      AdvanceOnRows(RearmIdentity(db, id, now), now);
      RearmedOnRows(db, RecoverNative(db, source, now), id, now);
  }

  lemma KeptTables(db: Db, es: set<Id>, now: Time)
    ensures ResolveRows(db, es, now).sources == db.sources && ResolveRows(db, es, now).targets == db.targets
  {
  }

  lemma RearmedTables(db: Db, id: Identity, now: Time)
    ensures RearmIdentity(db, id, now).sources == db.sources && RearmIdentity(db, id, now).targets == db.targets
  {
  }

  /** An active identity is not ruled out. */
  lemma NotRuledOut(db: Db, e: Id, id: Identity)
    requires Inv(db) && ActiveAt(db, e, id)
    ensures !IsRuledOut(db, id)
  {
    RuledOutMeans(db, id);
  }
}
