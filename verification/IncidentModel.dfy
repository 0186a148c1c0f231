/** The tables of the incident module and the values derived from them. */
module IncidentModel {
  import opened Common
  import opened Trigger

  type Id = nat
  type Time = int

  /** Ranks of the severities: 0 information, 1 warning, 2 major, 3 critical. */
  type Severity = s: int | 0 <= s <= 3

  datatype Status = Active | Resolved

  datatype Propagation = Open | Closed

  datatype Sync = NotApplicable | Pending | Synchronized | SyncFailed

  datatype Origin = Zabbix | UptimeKuma | Webhook | Native | PatchMon | Argus | Proxmox

  datatype Target = Live | Archived | Absorbed

  /** What brings incidents together: `key` names the nature on a target, the other fields name it across targets. */
  datatype Nature = Nature(key: string, scope: string, namespace: string, fingerprint: string, eligible: bool)

  function CanonicalNature(key: string): Nature
  {
    Nature(key, "canonical", "cairnops", key, true)
  }

  function ConnectorNature(connector: string, key: string, fingerprint: string): Nature
  {
    Nature(key, "connector", connector, fingerprint, !Blank(fingerprint))
  }

  datatype Identity = Identity(origin: Origin, scope: string, key: string)

  datatype Incident = Incident(
    nature: Nature, status: Status, propagation: Propagation, severity: Severity,
    openedAt: Time, lastImpactAt: Time, window: int, endsAt: Time,
    closedAt: Option<Time>, resolvedAt: Option<Time>,
    acknowledgedAt: Option<Time>, ackSync: Sync,
    activeCount: int, impactCount: int, maxAffected: int, extended: bool,
    resumptions: int, resumedAt: Option<Time>,
    resolutions: int  // how many "resolved" entries the activity journal holds
  )

  datatype Impact = Impact(
    incident: Id, target: string, status: Status, severity: Severity,
    openedAt: Time, resolvedAt: Option<Time>
  )

  datatype Evidence = Evidence(
    incident: Id, impact: Id, target: string, identity: Identity,
    connector: string, binding: string, source: string,
    active: bool, severity: Severity, openedAt: Time, resolvedAt: Option<Time>,
    upstream: bool, ackSync: Sync,
    invalidatedAt: Option<Time>, rearmedAt: Option<Time>
  )

  /** A native check: its policy, its persisted streaks and its cadence. */
  datatype Source = Source(policy: Policy, streaks: Streaks, severity: Severity, interval: int)

  datatype Db = Db(
    targets: map<string, Target>, connectors: map<string, int>, sources: map<string, Source>,
    incidents: map<Id, Incident>, impacts: map<Id, Impact>, evidence: map<Id, Evidence>,
    next: Id
  )

  datatype Error = InvalidInput | NotFound | TargetArchived | Conflict | LeaseLost

  /** A fact reported by an adapter. `severity` is unchecked input. */
  datatype Fact = Fact(
    identity: Identity, connector: string, binding: string, source: string,
    target: string, nature: Nature, name: string, severity: int,
    openedAt: Time, upstream: bool, evaluationWindow: int
  )

  // ----- Derived values -----

  /** Evidence that keeps impact `p` alive. */
  predicate Sustains(row: Evidence, p: Id)
  {
    row.impact == p && row.active && row.invalidatedAt.None?
  }

  function LiveSeverities(evidence: map<Id, Evidence>, p: Id): set<Severity>
  {
    set e | e in evidence && Sustains(evidence[e], p) :: evidence[e].severity
  }

  function ImpactsOf(impacts: map<Id, Impact>, i: Id): set<Id>
  {
    set p | p in impacts && impacts[p].incident == i
  }

  function ActiveOf(impacts: map<Id, Impact>, i: Id): set<Id>
  {
    set p | p in impacts && impacts[p].incident == i && impacts[p].status == Active
  }

  function ActiveSeverities(impacts: map<Id, Impact>, i: Id): set<Severity>
  {
    set p | p in impacts && impacts[p].incident == i && impacts[p].status == Active :: impacts[p].severity
  }

  function ActiveTargets(impacts: map<Id, Impact>, i: Id): set<string>
  {
    set p | p in impacts && impacts[p].incident == i && impacts[p].status == Active :: impacts[p].target
  }

  function LiveTargetCount(targets: map<string, Target>): int
  {
    |set t | t in targets && targets[t] == Live|
  }

  /** Active Zabbix evidence of incident `i`: what an acknowledgement has to reach. */
  predicate Remote(row: Evidence, i: Id)
  {
    row.incident == i && row.active && row.identity.origin == Zabbix
  }

  function DerivedSync(evidence: map<Id, Evidence>, i: Id): Sync
  {
    if !exists e :: e in evidence && Remote(evidence[e], i) then NotApplicable
    else if exists e :: e in evidence && Remote(evidence[e], i) && evidence[e].ackSync == SyncFailed then SyncFailed
    else if exists e :: e in evidence && Remote(evidence[e], i) && evidence[e].ackSync == Pending then Pending
    else Synchronized
  }

  /** The greatest rank of a non-empty set of severities. */
  function Top(s: set<Severity>): Severity
  {
    if 3 in s then 3 else if 2 in s then 2 else if 1 in s then 1 else 0
  }

  lemma TopIsGreatest(s: set<Severity>)
    requires s != {}
    ensures Top(s) in s && forall x :: x in s ==> x <= Top(s)
  {
    var x :| x in s;
    assert x == 0 || x == 1 || x == 2 || x == 3;
  }

  // ----- Recomputation of the stored aggregates -----

  /** The impact row recomputed from its evidence. */
  function DerivedImpact(evidence: map<Id, Evidence>, p: Id, row: Impact, now: Time): Impact
  {
    var live := LiveSeverities(evidence, p);
    var status := if live == {} then Resolved else Active;
    var severity := if live == {} then row.severity else Top(live);
    if status == row.status && severity == row.severity then row
    else row.(status := status, severity := severity, resolvedAt := if live == {} then Some(now) else None)
  }

  function WithSync(evidence: map<Id, Evidence>, i: Id, row: Incident): Incident
  {
    if row.acknowledgedAt.Some? then row.(ackSync := DerivedSync(evidence, i)) else row
  }

  /** The incident row re-aggregated from its impacts, before its acknowledgement is recomputed. */
  function Aggregated(impacts: map<Id, Impact>, liveTargets: int, i: Id, row: Incident, now: Time): Incident
  {
    var active := |ActiveOf(impacts, i)|;
    var total := |ImpactsOf(impacts, i)|;
    var severities := ActiveSeverities(impacts, i);
    var severity := if severities == {} then row.severity else Top(severities);
    var closes := row.propagation == Open && now >= row.endsAt;
    var propagation := if closes then Closed else row.propagation;
    var status := if propagation == Closed && active == 0 then Resolved else Active;
    var most := if active > row.maxAffected then active else row.maxAffected;
    var extended := row.extended || active >= 20 || (active >= 5 && liveTargets > 0 && active * 5 >= liveTargets);
    if status == row.status && propagation == row.propagation && severity == row.severity &&
       active == row.activeCount && total == row.impactCount && most == row.maxAffected && extended == row.extended
    then row
    else row.(
      status := status, propagation := propagation, severity := severity,
      closedAt := if closes then Some(now) else if propagation == Closed then row.closedAt else None,
      resolvedAt := if status == Active then None else if row.status == Resolved then row.resolvedAt else Some(now),
      activeCount := active, impactCount := total, maxAffected := most, extended := extended,
      resolutions := row.resolutions + if status == Resolved && row.status == Active then 1 else 0)
  }

  function RecomputeImpacts(db: Db, ps: set<Id>, now: Time): Db
  {
    db.(impacts := map p | p in db.impacts ::
      if p in ps then DerivedImpact(db.evidence, p, db.impacts[p], now) else db.impacts[p])
  }

  function RecomputeIncidents(db: Db, ns: set<Id>, now: Time): Db
  {
    var live := LiveTargetCount(db.targets);
    db.(incidents := map i | i in db.incidents ::
      if i in ns then WithSync(db.evidence, i, Aggregated(db.impacts, live, i, db.incidents[i], now))
      else db.incidents[i])
  }

  /** The incidents whose propagation window has run out. */
  function Due(db: Db, now: Time): set<Id>
  {
    set i | i in db.incidents && db.incidents[i].status == Active &&
      db.incidents[i].propagation == Open && db.incidents[i].endsAt <= now
  }

  function AdvanceDue(db: Db, now: Time): Db
  {
    RecomputeIncidents(db, Due(db, now), now)
  }

  /** Recomputes the impacts, then the incidents: how every transaction ends. */
  function Settle(db: Db, ps: set<Id>, ns: set<Id>, now: Time): Db
  {
    RecomputeIncidents(RecomputeImpacts(db, ps, now), ns, now)
  }
}
