/** The evidence cycle: how a reported fact changes the incident tables. */
module IncidentCycle {
  import opened Common
  import opened IncidentModel

  const RESUMPTION_WINDOW := 6 * 3600

  /** References between the tables resolve. */
  predicate Linked(db: Db)
  {
    && (forall p :: p in db.impacts ==> db.impacts[p].incident in db.incidents)
    && (forall e :: e in db.evidence ==> db.evidence[e].incident in db.incidents)
  }

  // ----- Row-level statements -----

  /** Closes the active evidence rows of `es`. */
  function ResolveRows(db: Db, es: set<Id>, now: Time): Db
  {
    db.(evidence := map e | e in db.evidence ::
      if e in es && db.evidence[e].active then db.evidence[e].(active := false, resolvedAt := Some(now))
      else db.evidence[e])
  }

  function ImpactsTouching(db: Db, es: set<Id>): set<Id>
  {
    set e | e in es && e in db.evidence :: db.evidence[e].impact
  }

  function IncidentsTouching(db: Db, es: set<Id>): set<Id>
  {
    set e | e in es && e in db.evidence :: db.evidence[e].incident
  }

  predicate Acknowledged(db: Db, i: Id)
  {
    i in db.incidents && db.incidents[i].acknowledgedAt.Some?
  }

  function RecomputeAck(db: Db, i: Id): Db
    requires i in db.incidents
  {
    db.(incidents := db.incidents[i := WithSync(db.evidence, i, db.incidents[i])])
  }

  /** Marks the active Zabbix evidence of a newly acknowledged incident. */
  function QueueEvidence(db: Db, i: Id): Db
  {
    db.(evidence := map e | e in db.evidence ::
      if Remote(db.evidence[e], i) then
        db.evidence[e].(ackSync := if db.evidence[e].upstream then Synchronized else Pending)
      else db.evidence[e])
  }

  /** An acknowledgement seen upstream acknowledges the incident it belongs to. */
  function AckFromEvidence(db: Db, i: Id, now: Time): (r: Db)
    requires i in db.incidents && Linked(db)
    ensures Linked(r)
  {
    if Acknowledged(db, i) then RecomputeAck(db, i)
    else RecomputeAck(
      QueueEvidence(db.(incidents := db.incidents[i := db.incidents[i].(acknowledgedAt := Some(now))]), i), i)
  }

  // ----- Queries -----

  /** The active evidence row carrying an identity. */
  ghost function ActiveRow(evidence: map<Id, Evidence>, id: Identity): (r: Option<Id>)
    ensures r.Some? ==> r.value in evidence && evidence[r.value].active && evidence[r.value].identity == id
    ensures r.None? ==> forall e :: e in evidence && evidence[e].active ==> evidence[e].identity != id
  {
    var rows := map e | e in evidence && evidence[e].active && evidence[e].identity == id :: 0;
    var r := PickFirst(rows);
    assert r.None? ==> forall e :: e in evidence && evidence[e].active && evidence[e].identity == id ==> e in rows;
    r
  }

  /** An invalidation that no recovery has re-armed. */
  predicate Unarmed(row: Evidence)
  {
    row.invalidatedAt.Some? && row.rearmedAt.None?
  }

  predicate Suppressed(evidence: map<Id, Evidence>, id: Identity)
  {
    exists e :: e in evidence && Unarmed(evidence[e]) && evidence[e].identity == id
  }

  /** Impact `p` puts an incident of nature `key` on the target. */
  predicate Bears(db: Db, p: Id, target: string, key: string)
  {
    && p in db.impacts && db.impacts[p].target == target
    && db.impacts[p].incident in db.incidents
    && db.incidents[db.impacts[p].incident].nature.key == key
  }

  /** Impacts of a target that are active in an active incident of a nature. */
  predicate Hosts(db: Db, p: Id, target: string, key: string)
  {
    && Bears(db, p, target, key) && db.impacts[p].status == Active
    && db.incidents[db.impacts[p].incident].status == Active
  }

  ghost function ActiveImpact(db: Db, f: Fact): (r: Option<Id>)
    ensures r.Some? ==> Hosts(db, r.value, f.target, f.nature.key)
    ensures r.None? ==> forall p :: p in db.impacts ==> !Hosts(db, p, f.target, f.nature.key)
  {
    var rows := map p | p in db.impacts && Hosts(db, p, f.target, f.nature.key) :: -db.impacts[p].openedAt;
    var r := PickFirst(rows);
    assert r.None? ==> forall p :: p in db.impacts && Hosts(db, p, f.target, f.nature.key) ==> p in rows;
    r
  }

  /** An active incident still propagating the nature of the fact when the fact opened. */
  predicate Propagates(row: Incident, f: Fact)
  {
    && row.status == Active && row.propagation == Open && row.nature.eligible
    && row.nature.scope == f.nature.scope && row.nature.namespace == f.nature.namespace
    && row.nature.fingerprint == f.nature.fingerprint
    && row.openedAt <= f.openedAt <= row.endsAt
  }

  ghost function PropagatingIncident(db: Db, f: Fact): (r: Option<Id>)
    ensures r.Some? ==> f.nature.eligible && r.value in db.incidents && Propagates(db.incidents[r.value], f)
    ensures r.None? && f.nature.eligible ==> forall i :: i in db.incidents ==> !Propagates(db.incidents[i], f)
  {
    var rows := map i | i in db.incidents && Propagates(db.incidents[i], f) :: db.incidents[i].openedAt;
    var r := if f.nature.eligible then PickFirst(rows) else None;
    assert r.None? && f.nature.eligible ==>
      forall i :: i in db.incidents && Propagates(db.incidents[i], f) ==> i in rows;
    r
  }

  ghost function ImpactOn(impacts: map<Id, Impact>, i: Id, target: string): (r: Option<Id>)
    ensures r.Some? ==> r.value in impacts && impacts[r.value].incident == i && impacts[r.value].target == target
    ensures r.None? ==> forall p :: p in impacts && impacts[p].incident == i ==> impacts[p].target != target
  {
    var rows := map p | p in impacts && impacts[p].incident == i && impacts[p].target == target :: 0;
    var r := PickFirst(rows);
    assert r.None? ==>
      forall p :: p in impacts && impacts[p].incident == i && impacts[p].target == target ==> p in rows;
    r
  }

  /** A recently resolved single-impact incident of this target and nature, with no later one. */
  predicate Resumable(db: Db, p: Id, f: Fact, now: Time)
  {
    && Bears(db, p, f.target, f.nature.key)
    && var row := db.incidents[db.impacts[p].incident];
    && row.status == Resolved && row.impactCount == 1
    && row.resolvedAt.Some? && f.openedAt - RESUMPTION_WINDOW <= row.resolvedAt.value <= now
    && forall q :: q in db.impacts && Bears(db, q, f.target, f.nature.key) ==>
      db.incidents[db.impacts[q].incident].openedAt <= row.openedAt
  }

  ghost function ResumableImpact(db: Db, f: Fact, now: Time): (r: Option<Id>)
    ensures r.Some? ==> Resumable(db, r.value, f, now)
    ensures r.None? ==> forall p :: p in db.impacts ==> !Resumable(db, p, f, now)
  {
    var rows := map p | p in db.impacts && Resumable(db, p, f, now) ::
      -db.incidents[db.impacts[p].incident].resolvedAt.value;
    var r := PickFirst(rows);
    assert r.None? ==> forall p :: p in db.impacts && Resumable(db, p, f, now) ==> p in rows;
    r
  }

  // ----- Opening an impact -----

  function Clamp(lo: int, x: int, hi: int): int { if x < lo then lo else if x > hi then hi else x }

  /** How often the origin of a fact is observed. */
  function Cadence(db: Db, f: Fact): int
  {
    if f.source != "" then (if f.source in db.sources then db.sources[f.source].interval else 30)
    else if f.connector != "" && f.connector in db.connectors then db.connectors[f.connector] else 30
  }

  /** The propagation window a fact asks for: twice its cadence or its evaluation window, from one to five minutes. */
  function EvidenceWindow(db: Db, f: Fact): int
  {
    var interval := Cadence(db, f);
    var evaluated := if f.evaluationWindow < 300 then f.evaluationWindow else 300;
    Clamp(60, if interval * 2 > evaluated then interval * 2 else evaluated, 300)
  }

  function Later(a: Time, b: Time): Time { if a >= b then a else b }

  function ExtendPropagation(row: Incident, openedAt: Time, window: int): Incident
  {
    if row.propagation != Open then row
    else
      var last := Later(row.lastImpactAt, openedAt);
      var w := if row.window >= window then row.window else window;
      row.(lastImpactAt := last, window := w, endsAt := Later(row.endsAt, last + w))
  }

  predicate ValidSeverity(s: int) { 0 <= s <= 3 }

  /** The rows holding the impact a fact belongs to. */
  datatype Opened = Opened(db: Db, incident: Id, impact: Id)

  function Reopen(row: Impact, f: Fact): Impact
    requires ValidSeverity(f.severity)
  {
    row.(status := Active, resolvedAt := None, severity := f.severity)
  }

  function NewImpact(i: Id, f: Fact): Impact
    requires ValidSeverity(f.severity)
  {
    Impact(i, f.target, Active, f.severity, f.openedAt, None)
  }

  /** The window of incident `i` slides with the fact. */
  function Slid(db: Db, i: Id, f: Fact): map<Id, Incident>
    requires i in db.incidents
  {
    db.incidents[i := ExtendPropagation(db.incidents[i], f.openedAt, EvidenceWindow(db, f))]
  }

  /** The fact joins incident `i` through the impact `p` it already has on the target. */
  function Rejoin(db: Db, i: Id, p: Id, f: Fact): Opened
    requires ValidSeverity(f.severity) && i in db.incidents && p in db.impacts
  {
    Opened(db.(incidents := Slid(db, i, f), impacts := db.impacts[p := Reopen(db.impacts[p], f)]), i, p)
  }

  /** The fact joins incident `i` through a new impact. */
  function Spread(db: Db, i: Id, f: Fact): Opened
    requires ValidSeverity(f.severity) && i in db.incidents
  {
    Opened(db.(incidents := Slid(db, i, f), impacts := db.impacts[db.next := NewImpact(i, f)], next := db.next + 1), i, db.next)
  }

  /** The fact joins an incident that is still propagating. */
  ghost function Join(db: Db, i: Id, f: Fact): Opened
    requires ValidSeverity(f.severity) && i in db.incidents
  {
    match ImpactOn(db.impacts, i, f.target)
    case Some(p) => Rejoin(db, i, p, f)
    case None => Spread(db, i, f)
  }

  /** The fact resumes a resolved incident, which stays marked resolved until it is recomputed. */
  function Resume(db: Db, p: Id, f: Fact, now: Time): Opened
    requires ValidSeverity(f.severity) && p in db.impacts && db.impacts[p].incident in db.incidents
  {
    var i := db.impacts[p].incident;
    var row := db.incidents[i];
    Opened(db.(incidents := db.incidents[i := row.(resumptions := row.resumptions + 1, resumedAt := Some(now))],
               impacts := db.impacts[p := Reopen(db.impacts[p], f)]),
           i, p)
  }

  /** The fact opens an incident of its own. */
  function Create(db: Db, f: Fact, now: Time): Opened
    requires ValidSeverity(f.severity)
  {
    var window := EvidenceWindow(db, f);
    var row := Incident(
      f.nature, Active, if f.nature.eligible then Open else Closed, f.severity,
      f.openedAt, f.openedAt, window, f.openedAt + window,
      if f.nature.eligible then None else Some(now), None,
      None, NotApplicable, 1, 1, 1, false, 0, None, 0);
    Opened(db.(incidents := db.incidents[db.next := row],
               impacts := db.impacts[db.next + 1 := NewImpact(db.next, f)],
               next := db.next + 2),
           db.next, db.next + 1)
  }

  lemma JoinLinks(db: Db, i: Id, f: Fact)
    requires ValidSeverity(f.severity) && Linked(db) && i in db.incidents
    ensures var o := Join(db, i, f); Linked(o.db) && o.incident in o.db.incidents && o.impact in o.db.impacts
  {
    hide ExtendPropagation, EvidenceWindow;
  }

  /** Finds or opens the impact of a fact on a live target. */
  ghost function OpenImpact(db: Db, f: Fact, now: Time): (o: Opened)
    requires ValidSeverity(f.severity) && Linked(db)
    ensures Linked(o.db) && o.incident in o.db.incidents && o.impact in o.db.impacts
  {
    match ActiveImpact(db, f)
    case Some(p) => Opened(db, db.impacts[p].incident, p)
    case None =>
      match PropagatingIncident(db, f)
      case Some(i) =>
        JoinLinks(db, i, f);
        Join(db, i, f)
      case None =>
        match ResumableImpact(db, f, now)
        case Some(p) => Resume(db, p, f, now)
        case None => Create(db, f, now)
  }

  // ----- Applying a fact -----

  /** Zabbix evidence joining an acknowledged incident queues up for the same acknowledgement. */
  predicate Inherits(db: Db, f: Fact, i: Id)
  {
    !f.upstream && f.identity.origin == Zabbix && Acknowledged(db, i)
  }

  function NewEvidence(f: Fact, i: Id, p: Id, inherits: bool): Evidence
    requires ValidSeverity(f.severity)
  {
    Evidence(i, p, f.target, f.identity, f.connector, f.binding, f.source,
             true, f.severity, f.openedAt, None,
             f.upstream, if f.upstream then Synchronized else if inherits then Pending else NotApplicable, None, None)
  }

  function InsertEvidence(db: Db, f: Fact, i: Id, p: Id): (r: Db)
    requires ValidSeverity(f.severity) && i in db.incidents && Linked(db)
    ensures Linked(r)
  {
    var inherits := Inherits(db, f, i);
    db.(evidence := db.evidence[db.next := NewEvidence(f, i, p, inherits)],
        incidents := if inherits then db.incidents[i := db.incidents[i].(ackSync := Pending)] else db.incidents,
        next := db.next + 1)
  }

  /** Records the evidence of a fact on its impact. */
  function AddEvidence(db: Db, f: Fact, i: Id, p: Id, now: Time): (r: Db)
    requires ValidSeverity(f.severity) && i in db.incidents && Linked(db)
    ensures Linked(r)
  {
    var added := InsertEvidence(db, f, i, p);
    if f.upstream then AckFromEvidence(added, i, now) else added
  }

  function RefreshRow(db: Db, e: Id, f: Fact): (r: Db)
    requires ValidSeverity(f.severity) && e in db.evidence && Linked(db)
    ensures Linked(r)
  {
    var row := db.evidence[e];
    var sync := if f.upstream then Synchronized else if Acknowledged(db, row.incident) then Pending else row.ackSync;
    db.(evidence := db.evidence[e := row.(severity := f.severity, upstream := f.upstream, ackSync := sync)])
  }

  /** An active row that is reported again unchanged. */
  function Refresh(db: Db, e: Id, f: Fact, now: Time): Db
    requires ValidSeverity(f.severity) && e in db.evidence && Linked(db)
  {
    var refreshed := RefreshRow(db, e, f);
    if f.upstream then AckFromEvidence(refreshed, db.evidence[e].incident, now) else refreshed
  }

  datatype Applied =
    | Touched(db: Db, incident: Id, impact: Id)
    | Ignored(db: Db)
    | Skipped(db: Db)  // the target is archived
    | Failed(error: Error)

  /** Opens new evidence for an identity that has none. */
  ghost function OpenFact(db: Db, f: Fact, now: Time): (r: Applied)
    requires ValidSeverity(f.severity) && Linked(db)
    ensures !r.Failed? ==> Linked(r.db)
  {
    if Suppressed(db.evidence, f.identity) then Ignored(db)
    else if f.target !in db.targets then Failed(NotFound)
    else if db.targets[f.target] != Live then Skipped(db)
    else
      var o := OpenImpact(db, f, now);
      Touched(AddEvidence(o.db, f, o.incident, o.impact, now), o.incident, o.impact)
  }

  /** Closes one evidence row and recomputes what it belonged to at once. */
  function Retire(db: Db, e: Id, now: Time): Db
    requires e in db.evidence
  {
    Settle(ResolveRows(db, {e}, now), {db.evidence[e].impact}, {db.evidence[e].incident}, now)
  }

  predicate Complete(f: Fact)
  {
    && !Blank(f.identity.scope) && !Blank(f.identity.key) && !Blank(f.target)
    && !Blank(f.nature.key) && !Blank(f.name) && ValidSeverity(f.severity)
  }

  ghost function ApplyFact(db: Db, f: Fact, now: Time): (r: Applied)
    requires Linked(db)
    ensures !r.Failed? ==> Linked(r.db)
  {
    if !Complete(f) then Failed(InvalidInput)
    else
      match ActiveRow(db.evidence, f.identity)
      case None => OpenFact(db, f, now)
      case Some(e) =>
        var row := db.evidence[e];
        if row.invalidatedAt.Some? then Touched(db, row.incident, row.impact)
        else if row.target == f.target && db.incidents[row.incident].nature.key == f.nature.key then
          Touched(Refresh(db, e, f, now), row.incident, row.impact)
        else OpenFact(Retire(db, e, now), f, now)
  }
}
