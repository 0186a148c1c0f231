/** Structural corrections: targets merged into one another, sources moved to another target. */
module IncidentStructure {
  import opened Common
  import opened IncidentModel
  import opened IncidentCycle

  function EvidenceOf(evidence: map<Id, Evidence>, p: Id): set<Id>
  {
    set e | e in evidence && evidence[e].impact == p
  }

  /** Moves evidence to impact `d` of target `t`. */
  function Relocate(evidence: map<Id, Evidence>, es: set<Id>, d: Id, t: string): map<Id, Evidence>
  {
    map e | e in evidence :: if e in es then evidence[e].(impact := d, target := t) else evidence[e]
  }

  /** The whole impact `s` changes target. */
  function Retarget(db: Db, s: Id, t: string): Db
    requires s in db.impacts
  {
    db.(impacts := db.impacts[s := db.impacts[s].(target := t)],
        evidence := Relocate(db.evidence, EvidenceOf(db.evidence, s), s, t))
  }

  /** Impact `s` disappears into impact `d` of target `t`. */
  function Absorb(db: Db, s: Id, d: Id, t: string): Db
  {
    db.(impacts := db.impacts - {s}, evidence := Relocate(db.evidence, EvidenceOf(db.evidence, s), d, t))
  }

  // ----- Merging targets -----

  /** One impact of the absorbed target: retargeted, or absorbed by the impact the kept target has in the same incident. */
  ghost function MergeOne(db: Db, s: Id, primary: string, now: Time): Db
    requires s in db.impacts
  {
    match ImpactOn(db.impacts, db.impacts[s].incident, primary)
    case None => Retarget(db, s, primary)
    case Some(d) => RecomputeImpacts(Absorb(db, s, d, primary), {d}, now)
  }

  ghost function MergeAll(db: Db, order: seq<Id>, primary: string, now: Time): Db
    decreases |order|
  {
    if order == [] then db
    else MergeAll(if order[0] in db.impacts then MergeOne(db, order[0], primary, now) else db, order[1..], primary, now)
  }

  function ImpactsOn(impacts: map<Id, Impact>, target: string): set<Id>
  {
    set p | p in impacts && impacts[p].target == target
  }

  function IncidentsOn(impacts: map<Id, Impact>, target: string): set<Id>
  {
    set p | p in impacts && impacts[p].target == target :: impacts[p].incident
  }

  /** `order` lists the impacts of a set once each: the order in which a loop visits them. */
  predicate Lists(order: seq<Id>, ps: set<Id>)
  {
    && (forall k :: 0 <= k < |order| ==> order[k] in ps)
    && (forall p :: p in ps ==> p in order)
    && (forall k, l :: 0 <= k < l < |order| ==> order[k] != order[l])
  }

  /** Two live targets become one; the absorbed target leaves the operational space for good. */
  ghost function MergeTargets(db: Db, primary: string, secondary: string, order: seq<Id>, now: Time): Result<Db, Error>
    requires Lists(order, ImpactsOn(db.impacts, secondary))
  {
    if primary == secondary || primary !in db.targets || secondary !in db.targets then Err(NotFound)
    else if db.targets[primary] != Live || db.targets[secondary] != Live then Err(Conflict)
    else
      var merged := RecomputeIncidents(MergeAll(db, order, primary, now), IncidentsOn(db.impacts, secondary), now);
      Ok(merged.(targets := merged.targets[secondary := Absorbed]))
  }

  // ----- Moving a source -----

  predicate FromSource(row: Evidence, source: string, binding: string)
  {
    (source != "" && row.source == source) || (binding != "" && row.binding == binding)
  }

  function Selected(evidence: map<Id, Evidence>, p: Id, source: string, binding: string): set<Id>
  {
    set e | e in evidence && evidence[e].impact == p && FromSource(evidence[e], source, binding)
  }

  function ImpactsFrom(evidence: map<Id, Evidence>, source: string, binding: string): set<Id>
  {
    set e | e in evidence && FromSource(evidence[e], source, binding) :: evidence[e].impact
  }

  function IncidentsFrom(evidence: map<Id, Evidence>, source: string, binding: string): set<Id>
  {
    set e | e in evidence && FromSource(evidence[e], source, binding) :: evidence[e].incident
  }

  function Openings(evidence: map<Id, Evidence>, es: set<Id>): map<Id, int>
  {
    map e | e in es && e in evidence :: evidence[e].openedAt
  }

  /** Resolutions, the latest first. */
  function Resolutions(evidence: map<Id, Evidence>, es: set<Id>): map<Id, int>
  {
    map e | e in es && e in evidence && evidence[e].resolvedAt.Some? :: -evidence[e].resolvedAt.value
  }

  function Severities(evidence: map<Id, Evidence>, es: set<Id>): set<Severity>
  {
    set e | e in es && e in evidence :: evidence[e].severity
  }

  ghost function EarliestOpening(evidence: map<Id, Evidence>, es: set<Id>): Time
  {
    match PickFirst(Openings(evidence, es))
    case Some(e) => evidence[e].openedAt
    case None => 0
  }

  ghost function LatestResolution(evidence: map<Id, Evidence>, es: set<Id>, now: Time): Time
  {
    match PickFirst(Resolutions(evidence, es))
    case Some(e) => evidence[e].resolvedAt.value
    case None => now
  }

  /** The impact split off for evidence that leaves the others behind. */
  ghost function SplitImpact(evidence: map<Id, Evidence>, es: set<Id>, i: Id, t: string, now: Time): Impact
  {
    var live := exists e :: e in es && e in evidence && evidence[e].active && evidence[e].invalidatedAt.None?;
    Impact(i, t, if live then Active else Resolved, Top(Severities(evidence, es)),
           EarliestOpening(evidence, es), if live then None else Some(LatestResolution(evidence, es, now)))
  }

  function WithImpact(db: Db, row: Impact): Db
  {
    db.(impacts := db.impacts[db.next := row], next := db.next + 1)
  }

  /** Part of the evidence of `s` moves to impact `d`. */
  function Detach(db: Db, es: set<Id>, d: Id, t: string): Db
  {
    db.(evidence := Relocate(db.evidence, es, d, t))
  }

  /** The evidence of one impact that comes from the source moves to the destination target. */
  ghost function ReassignOne(db: Db, s: Id, t: string, source: string, binding: string, now: Time): Db
    requires s in db.impacts
  {
    var es := Selected(db.evidence, s, source, binding);
    var i := db.impacts[s].incident;
    match ImpactOn(db.impacts, i, t)
    case Some(d) =>
      if d == s then RecomputeImpacts(db, {s}, now)
      else if es == EvidenceOf(db.evidence, s) then RecomputeImpacts(Absorb(db, s, d, t), {d}, now)
      else RecomputeImpacts(Detach(db, es, d, t), {s, d}, now)
    case None =>
      if es == EvidenceOf(db.evidence, s) then RecomputeImpacts(Retarget(db, s, t), {s}, now)
      else
        var split := WithImpact(db, SplitImpact(db.evidence, es, i, t, now));
        RecomputeImpacts(Detach(split, es, db.next, t), {s, db.next}, now)
  }

  ghost function ReassignAll(db: Db, order: seq<Id>, t: string, source: string, binding: string, now: Time): Db
    decreases |order|
  {
    if order == [] then db
    else ReassignAll(
      if order[0] in db.impacts then ReassignOne(db, order[0], t, source, binding, now) else db,
      order[1..], t, source, binding, now)
  }

  ghost function ReassignSource(db: Db, t: string, source: string, binding: string, order: seq<Id>,
      now: Time): Result<Db, Error>
    requires Lists(order, ImpactsFrom(db.evidence, source, binding))
  {
    if t !in db.targets then Err(NotFound)
    else if db.targets[t] != Live then Err(Conflict)
    else Ok(RecomputeIncidents(ReassignAll(db, order, t, source, binding, now), IncidentsFrom(db.evidence, source, binding), now))
  }
}
