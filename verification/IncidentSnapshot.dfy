/** Whole transactions of the cycle: snapshots, direct resolution, native observations and acknowledgements. */
module IncidentSnapshot {
  import opened Common
  import opened Trigger
  import opened IncidentModel
  import opened IncidentCycle

  // ----- The order in which a snapshot applies its facts -----

  function SortKey(f: Fact): string { f.identity.scope + "\0" + f.identity.key }

  predicate Before(a: Fact, b: Fact)
  {
    a.openedAt < b.openedAt || (a.openedAt == b.openedAt && Less(SortKey(a), SortKey(b)))
  }

  /** Inserts a fact after every fact it does not precede, which keeps equal facts in their order. */
  function Insert(f: Fact, sorted: seq<Fact>): seq<Fact>
  {
    if |sorted| == 0 || !Before(f, sorted[|sorted| - 1]) then sorted + [f]
    else Insert(f, sorted[..|sorted| - 1]) + [sorted[|sorted| - 1]]
  }

  function Sort(facts: seq<Fact>): seq<Fact>
  {
    if facts == [] then [] else Insert(facts[|facts| - 1], Sort(facts[..|facts| - 1]))
  }

  /** A reported fact, with or without a date of its own. */
  datatype Signal = Signal(fact: Fact, dated: bool)

  datatype Snapshot = Snapshot(
    origin: Origin, connector: string, leaseValid: bool, observedAt: Time,
    complete: bool, scopes: set<string>, signals: seq<Signal>
  )

  function Prepare(s: Snapshot, signal: Signal): Fact
  {
    signal.fact.(
      identity := signal.fact.identity.(origin := s.origin),
      connector := s.connector,
      openedAt := if signal.dated then signal.fact.openedAt else s.observedAt)
  }

  function RawFacts(s: Snapshot): seq<Fact>
  {
    seq(|s.signals|, k requires 0 <= k < |s.signals| => Prepare(s, s.signals[k]))
  }

  /** The facts of a snapshot in the order of their application. */
  function Prepared(s: Snapshot): seq<Fact>
  {
    Sort(RawFacts(s))
  }

  // ----- One pass over the facts -----

  /** The state of a pass: what was seen, and the rows to recompute at its end. */
  datatype Pass = Pass(db: Db, seen: set<Identity>, impacts: set<Id>, incidents: set<Id>)

  ghost function ApplyOne(pass: Pass, f: Fact, now: Time): (r: Result<Pass, Error>)
    requires Linked(pass.db)
    ensures r.Ok? ==> Linked(r.value.db)
  {
    if f.identity in pass.seen then Ok(pass)
    else
      var seen := pass.seen + {f.identity};
      match ApplyFact(pass.db, f, now)
      case Touched(db, i, p) => Ok(Pass(db, seen, pass.impacts + {p}, pass.incidents + {i}))
      case Ignored(db) => Ok(pass.(db := db, seen := seen))
      case Skipped(db) => Ok(pass.(db := db, seen := seen))
      case Failed(error) => Err(error)
  }

  /** Applies the facts from left to right; the first error abandons the pass. */
  ghost function ApplyFacts(pass: Pass, facts: seq<Fact>, now: Time): Result<Pass, Error>
    requires Linked(pass.db)
    decreases |facts|
  {
    if facts == [] then Ok(pass)
    else
      match ApplyOne(pass, facts[0], now)
      case Ok(next) => ApplyFacts(next, facts[1..], now)
      case Err(error) => Err(error)
  }

  /** The evidence a snapshot has authority over. */
  predicate Observes(s: Snapshot, row: Evidence)
  {
    && row.identity.origin == s.origin && row.connector == s.connector
    && (s.complete || row.identity.scope in s.scopes)
  }

  /** Active evidence the snapshot should have reported and did not. */
  function Gone(db: Db, s: Snapshot, seen: set<Identity>): set<Id>
  {
    set e | e in db.evidence && db.evidence[e].active && Observes(s, db.evidence[e]) && db.evidence[e].identity !in seen
  }

  function Rearmed(row: Evidence, now: Time): Evidence
  {
    if row.invalidatedAt.Some? then row.(rearmedAt := Some(Later(now, row.invalidatedAt.value))) else row
  }

  /** Invalidations recover their right to report once their condition is observed gone. */
  function Rearm(db: Db, s: Snapshot, seen: set<Identity>, now: Time): Db
  {
    db.(evidence := map e | e in db.evidence ::
      if Unarmed(db.evidence[e]) && Observes(s, db.evidence[e]) && db.evidence[e].identity !in seen
      then Rearmed(db.evidence[e], now) else db.evidence[e])
  }

  /** Closes a set of evidence rows and settles what they belonged to. */
  function Close(db: Db, es: set<Id>, now: Time): Db
  {
    Settle(ResolveRows(db, es, now), ImpactsTouching(db, es), IncidentsTouching(db, es), now)
  }

  /** The end of a snapshot, once its facts are applied. */
  function Finish(pass: Pass, s: Snapshot): Db
  {
    var gone := Gone(pass.db, s, pass.seen);
    var rearmed := Rearm(ResolveRows(pass.db, gone, s.observedAt), s, pass.seen, s.observedAt);
    AdvanceDue(
      Settle(rearmed, pass.impacts + ImpactsTouching(pass.db, gone), pass.incidents + IncidentsTouching(pass.db, gone),
             s.observedAt),
      s.observedAt)
  }

  ghost function ApplySnapshot(db: Db, s: Snapshot): Result<Db, Error>
    requires Linked(db)
  {
    if !s.leaseValid then Err(LeaseLost)
    else
      match ApplyFacts(Pass(db, {}, {}, {}), Prepared(s), s.observedAt)
      case Ok(pass) => Ok(Finish(pass, s))
      case Err(error) => Err(error)
  }

  // ----- Other transactions -----

  /** A webhook reports the end of one condition. */
  ghost function ResolveEvidence(db: Db, id: Identity, now: Time): Db
  {
    match ActiveRow(db.evidence, id)
    case None => db
    case Some(e) => Close(db, {e}, now)
  }

  const AVAILABILITY := "availability"

  datatype Observation = Observation(source: string, target: string, name: string, outcome: Outcome, observedAt: Time)

  function NativeIdentity(source: string): Identity { Identity(Native, source, AVAILABILITY) }

  function NativeFact(o: Observation, severity: Severity): Fact
  {
    Fact(NativeIdentity(o.source), "", "", o.source, o.target, CanonicalNature(AVAILABILITY), o.name, severity,
         o.observedAt, false, 0)
  }

  function RearmIdentity(db: Db, id: Identity, now: Time): Db
  {
    db.(evidence := map e | e in db.evidence ::
      if Unarmed(db.evidence[e]) && db.evidence[e].identity == id then Rearmed(db.evidence[e], now)
      else db.evidence[e])
  }

  /** A confirmed recovery closes the evidence of the check, or re-arms its invalidation. */
  ghost function RecoverNative(db: Db, source: string, now: Time): Db
  {
    match ActiveRow(db.evidence, NativeIdentity(source))
    case Some(e) => Close(db, {e}, now)
    case None => AdvanceDue(RearmIdentity(db, NativeIdentity(source), now), now)
  }

  /** The new streaks of a check. */
  function Counted(db: Db, source: string, streaks: Streaks): Db
    requires source in db.sources
  {
    db.(sources := db.sources[source := db.sources[source].(streaks := streaks)])
  }

  /** What a decision of the trigger policy does to the evidence of the check. */
  ghost function NativeEffect(db: Db, o: Observation, severity: Severity, decision: Decision): Result<Db, Error>
    requires Linked(db)
  {
    if decision.triggered then
      match ApplyFact(db, NativeFact(o, severity), o.observedAt)
      case Touched(next, i, p) => Ok(Settle(next, {p}, {i}, o.observedAt))
      case Ignored(next) => Ok(next)
      case Skipped(_) => Err(TargetArchived)
      case Failed(error) => Err(error)
    else if decision.recovered then Ok(RecoverNative(db, o.source, o.observedAt))
    else Ok(AdvanceDue(db, o.observedAt))
  }

  ghost function ApplyNative(db: Db, o: Observation): Result<Db, Error>
    requires Linked(db)
  {
    if o.source !in db.sources then Err(NotFound)
    else
      var source := db.sources[o.source];
      var decision := Evaluate(source.policy, source.streaks, o.outcome);
      NativeEffect(Counted(db, o.source, decision.streaks), o, source.severity, decision)
  }

  /** An administrator rules one active evidence row out. */
  function Invalidate(db: Db, i: Id, e: Id, now: Time): Result<Db, Error>
  {
    if e in db.evidence && db.evidence[e].active && db.evidence[e].incident == i then
      var row := db.evidence[e].(active := false, resolvedAt := Some(now), invalidatedAt := Some(now));
      Ok(Settle(db.(evidence := db.evidence[e := row]), {row.impact}, {i}, now))
    else Err(NotFound)
  }

  /** The evidence an acknowledgement still has to reach. */
  function Plan(evidence: map<Id, Evidence>, i: Id): set<Id>
  {
    set e | e in evidence && Remote(evidence[e], i) && evidence[e].ackSync in {Pending, SyncFailed}
  }

  function AckLocal(db: Db, i: Id, now: Time): Result<Db, Error>
  {
    if i !in db.incidents then Err(NotFound)
    else if db.incidents[i].status == Resolved then Err(Conflict)
    else if Acknowledged(db, i) then Ok(db)
    else
      var external := exists e :: e in db.evidence && Remote(db.evidence[e], i);
      var row := db.incidents[i].(acknowledgedAt := Some(now), ackSync := if external then Pending else NotApplicable);
      Ok(QueueEvidence(db.(incidents := db.incidents[i := row]), i))
  }

  /** The answer of the monitoring server for one evidence row. */
  datatype AckResult = AckResult(evidence: Id, succeeded: bool)

  function RecordResult(db: Db, i: Id, r: AckResult): Db
  {
    if r.evidence in db.evidence && Remote(db.evidence[r.evidence], i) then
      var row := db.evidence[r.evidence];
      db.(evidence := db.evidence[r.evidence := row.(
        ackSync := if r.succeeded then Synchronized else SyncFailed, upstream := row.upstream || r.succeeded)])
    else db
  }

  function RecordResults(db: Db, i: Id, results: seq<AckResult>): Db
  {
    if results == [] then db
    else RecordResult(RecordResults(db, i, results[..|results| - 1]), i, results[|results| - 1])
  }

  function CompleteAck(db: Db, i: Id, results: seq<AckResult>): Db
    requires i in db.incidents
  {
    var recorded := RecordResults(db, i, results);
    recorded.(incidents := db.incidents[i := WithSync(recorded.evidence, i, db.incidents[i])])
  }

  function ActiveOn(evidence: map<Id, Evidence>, target: string): set<Id>
  {
    set e | e in evidence && evidence[e].active && evidence[e].target == target
  }

  function Archive(db: Db, target: string, now: Time): Result<Db, Error>
  {
    if target in db.targets && db.targets[target] == Live then
      var archived := db.(targets := db.targets[target := Archived]);
      Ok(Close(archived, ActiveOn(db.evidence, target), now))
    else Err(NotFound)
  }

  function Restore(db: Db, target: string): Result<Db, Error>
  {
    if target in db.targets && db.targets[target] == Archived then
      Ok(db.(targets := db.targets[target := Live]))
    else Err(NotFound)
  }

  datatype Owner = OwnerSource(source: string) | OwnerConnector(connector: string)

  predicate Owns(owner: Owner, row: Evidence)
  {
    match owner
    case OwnerSource(source) => source != "" && row.source == source
    case OwnerConnector(connector) => connector != "" && row.connector == connector
  }

  function ActiveOwned(evidence: map<Id, Evidence>, owner: Owner): set<Id>
  {
    set e | e in evidence && evidence[e].active && Owns(owner, evidence[e])
  }

  /** The evidence of a removed check or connector is closed before its owner disappears. */
  function RemoveOwner(db: Db, owner: Owner, now: Time): Db
  {
    Disown(Close(db, ActiveOwned(db.evidence, owner), now), owner)
  }

  /** Deleting the owner clears the references to it. */
  function Disown(db: Db, owner: Owner): Db
  {
    db.(evidence := map e | e in db.evidence ::
      if !Owns(owner, db.evidence[e]) then db.evidence[e]
      else if owner.OwnerSource? then db.evidence[e].(source := "")
      else db.evidence[e].(connector := "", binding := ""))
  }
}
