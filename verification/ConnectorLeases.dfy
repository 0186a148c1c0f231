/** The lease and status columns of connectors, shared by workers and administrators. */
module ConnectorLeases {
  import opened Common

  type Id = nat
  type Time = int

  datatype Kind = Zabbix | UptimeKuma | PatchMon | Argus | Proxmox | Webhook

  datatype Status = Connected | Degraded | Disabled

  datatype Connector = Connector(
    kind: Kind, endpoint: string, credential: string, status: Status,
    owner: Option<string>, until: Option<Time>, nextSync: Time, interval: int,
    managed: bool, managedId: string, cleanupEndpoint: string, cleanupCredential: string
  )

  type Table = map<Id, Connector>

  /** Endpoints are compared without case. */
  function Fold(s: string): string
  {
    seq(|s|, k requires 0 <= k < |s| => if 'A' <= s[k] <= 'Z' then s[k] - 'A' + 'a' else s[k])
  }

  /** One is the capital of the other. */
  predicate Capital(a: char, b: char)
  {
    'A' <= a <= 'Z' && 'a' <= b <= 'z' && a as int + 32 == b as int
  }

  /** Two endpoints are the same exactly if they differ in nothing but the case of their letters. */
  lemma FoldIgnoresCase(s: string, t: string)
    ensures Fold(s) == Fold(t) <==> |s| == |t| && forall k :: 0 <= k < |s| ==> s[k] == t[k] || Capital(s[k], t[k]) || Capital(t[k], s[k])
  {
    assert |Fold(s)| == |s| && |Fold(t)| == |t|;
    if Fold(s) == Fold(t) {
      forall k | 0 <= k < |s|
        ensures s[k] == t[k] || Capital(s[k], t[k]) || Capital(t[k], s[k])
      {
        assert Fold(s)[k] == Fold(t)[k];
      }
    }
  }

  /** What an administrator submits to replace a connection tested against a known revision of it. */
  datatype Replacement = Replacement(
    connector: Id, kind: Kind, previousEndpoint: string, previousCredential: string, endpoint: string, credential: string
  )

  datatype Action =
    | Claim(worker: string, kind: Kind, limit: nat, until: Time, now: Time)
    | Complete(worker: string, connector: Id, at: Time)
    | Fail(worker: string, connector: Id, at: Time)
    | Abandon(worker: string, connector: Id)  // the worker stops before it reports anything
    | SetStatus(connector: Id, status: Status, now: Time)
    | Import(newId: Id, kind: Kind, endpoint: string, credential: string, managed: bool, managedId: string, interval: int, now: Time)
    | Reopen(connector: Id, endpoint: string, managedId: string, now: Time)
    | Rekey(connector: Id, previous: string, sealed: string, now: Time)
    | Replace(replacement: Replacement, now: Time)
    | Remove(connector: Id)

  // ----- Claims -----

  predicate Due(row: Connector, kind: Kind, now: Time)
  {
    row.kind == kind && row.status != Disabled && row.nextSync <= now && (row.until.None? || row.until.value < now)
  }

  function DueRanks(rows: Table, kind: Kind, now: Time): map<Id, int>
  {
    map c | c in rows && Due(rows[c], kind, now) :: rows[c].nextSync
  }

  /** The `limit` first rows of a query ordered by rank. */
  ghost function TakeFirst(ranks: map<Id, int>, limit: nat): (r: set<Id>)
    ensures r <= ranks.Keys
    decreases limit
  {
    if limit == 0 || ranks == map[] then {}
    else
      var x := PickFirst(ranks).value;
      {x} + TakeFirst(ranks - {x}, limit - 1)
  }

  /** The rows `taken` come before those left out. */
  predicate Earliest(ranks: map<Id, int>, taken: set<Id>)
  {
    taken <= ranks.Keys && forall x, y :: x in taken && y in ranks && y !in taken ==> ranks[x] < ranks[y] || (ranks[x] == ranks[y] && x < y)
  }

  lemma EarliestStep(ranks: map<Id, int>, x: Id, taken: set<Id>)
    requires First(ranks, x) && Earliest(ranks - {x}, taken)
    ensures Earliest(ranks, {x} + taken) && x !in taken
  {
  }

  /** As many rows as there are, up to the limit, and none left out comes before one taken. */
  lemma {:induction false} TakeFirstTakesEarliest(ranks: map<Id, int>, limit: nat)
    ensures |TakeFirst(ranks, limit)| == if limit <= |ranks| then limit else |ranks|
    ensures Earliest(ranks, TakeFirst(ranks, limit))
    decreases limit
  {
    hide Earliest, First;
    if limit > 0 && ranks != map[] {
      var x := PickFirst(ranks).value;
      var rest := ranks - {x};
      FirstPresent(ranks, x);
      assert rest.Keys == ranks.Keys - {x} && |ranks.Keys| == |ranks| && |rest.Keys| == |rest|;
      TakeFirstTakesEarliest(rest, limit - 1);
      EarliestStep(ranks, x, TakeFirst(rest, limit - 1));
    } else {
      NothingTaken(ranks);
    }
  }

  lemma FirstPresent(ranks: map<Id, int>, x: Id)
    requires First(ranks, x)
    ensures x in ranks
  {
  }

  lemma NothingTaken(ranks: map<Id, int>)
    ensures Earliest(ranks, {}) && (ranks == map[] ==> |ranks| == 0)
  {
  }

  ghost function Taken(rows: Table, kind: Kind, limit: nat, now: Time): (r: set<Id>)
    ensures r <= rows.Keys
  {
    assert DueRanks(rows, kind, now).Keys <= rows.Keys;
    TakeFirst(DueRanks(rows, kind, now), limit)
  }

  /** The connectors `taken` have waited longer than connector `c`. */
  predicate AllBefore(rows: Table, taken: set<Id>, c: Id)
    requires taken <= rows.Keys && c in rows
  {
    forall d :: d in taken ==> rows[d].nextSync < rows[c].nextSync || (rows[d].nextSync == rows[c].nextSync && d < c)
  }

  /** A due connector is left out only if the limit is reached, by connectors that come before it. */
  lemma ClaimedEarliest(rows: Table, kind: Kind, limit: nat, now: Time)
    ensures var taken := Taken(rows, kind, limit, now);
      && taken == TakeFirst(DueRanks(rows, kind, now), limit) && |taken| <= limit
      && (forall c :: c in taken ==> Due(rows[c], kind, now))
      && forall c :: c in rows && c !in taken && Due(rows[c], kind, now) ==> |taken| == limit && AllBefore(rows, taken, c)
  {
    var ranks, taken := DueRanks(rows, kind, now), Taken(rows, kind, limit, now);
    TakeFirstTakesEarliest(ranks, limit);
    forall c | c in taken
      ensures Due(rows[c], kind, now)
    {
      TakenAreDue(rows, kind, limit, now, c);
    }
    if |taken| < limit {
      assert |ranks| == |ranks.Keys|;
      AllTaken(taken, ranks.Keys);
    }
    assert forall c :: c in rows && Due(rows[c], kind, now) ==> c in ranks && ranks[c] == rows[c].nextSync;
  }

  lemma AllTaken(part: set<Id>, whole: set<Id>)
    requires part <= whole && |part| == |whole|
    ensures part == whole
  {
    assert |whole - part| == 0;
  }

  lemma TakenAreDue(rows: Table, kind: Kind, limit: nat, now: Time, c: Id)
    requires c in Taken(rows, kind, limit, now)
    ensures c in rows && Due(rows[c], kind, now)
  {
    assert c in DueRanks(rows, kind, now);
  }

  // ----- The effect of each action -----

  function Leased(row: Connector, worker: string, until: Time): Connector
  {
    row.(owner := Some(worker), until := Some(until))
  }

  function Released(row: Connector): Connector { row.(owner := None, until := None) }

  predicate Holds(rows: Table, worker: string, c: Id)
  {
    c in rows && rows[c].owner == Some(worker)
  }

  function Finished(row: Connector, status: Status, at: Time): Connector
  {
    Released(row.(status := status, nextSync := at + row.interval))
  }

  /** The row an endpoint already has. */
  predicate AtEndpoint(rows: Table, c: Id, kind: Kind, endpoint: string)
  {
    c in rows && rows[c].kind == kind && Fold(rows[c].endpoint) == Fold(endpoint)
  }

  ghost function FindEndpoint(rows: Table, kind: Kind, endpoint: string): (r: Option<Id>)
    ensures r.Some? ==> AtEndpoint(rows, r.value, kind, endpoint)
    ensures r.None? ==> forall c :: !AtEndpoint(rows, c, kind, endpoint)
  {
    var ranks := map c | c in rows && AtEndpoint(rows, c, kind, endpoint) :: 0;
    var r := PickFirst(ranks);
    assert r.None? ==> forall c :: c in rows && AtEndpoint(rows, c, kind, endpoint) ==> c in ranks;
    r
  }

  function NewConnector(kind: Kind, endpoint: string, credential: string, managed: bool, managedId: string,
      interval: int, now: Time): Connector
  {
    Connector(kind, endpoint, credential, Connected, None, None, now, interval, managed, managedId, "", "")
  }

  predicate ReopenFits(row: Connector, endpoint: string, managedId: string)
  {
    row.kind == Proxmox && row.endpoint == endpoint && row.managedId == managedId && row.status != Disabled
  }

  function Rekeyed(row: Connector, replacement: string, now: Time): Connector
  {
    Released(row.(
      credential := replacement, nextSync := now,
      cleanupCredential := if row.cleanupEndpoint == row.endpoint then replacement else row.cleanupCredential))
  }

  /** The stored connection is still the revision the administrator saw. */
  predicate Unchanged(row: Connector, r: Replacement)
  {
    row.kind == r.kind && row.endpoint == r.previousEndpoint && row.credential == r.previousCredential
  }

  predicate MovesManaged(row: Connector, r: Replacement)
  {
    row.managed && row.cleanupEndpoint == "" && row.endpoint != r.endpoint
  }

  function Replaced(row: Connector, r: Replacement, now: Time): Connector
  {
    Released(row.(
      endpoint := r.endpoint, credential := r.credential,
      cleanupEndpoint := if MovesManaged(row, r) then row.endpoint else row.cleanupEndpoint,
      cleanupCredential := if MovesManaged(row, r) then row.credential
        else if row.cleanupEndpoint == r.endpoint then r.credential else row.cleanupCredential,
      status := if row.status == Disabled then Disabled else Connected, nextSync := now))
  }

  predicate Conflicting(rows: Table, r: Replacement)
  {
    exists c :: c in rows && c != r.connector && AtEndpoint(rows, c, r.kind, r.endpoint)
  }

  datatype ReplaceOutcome = Accepted | Busy | Changed | EndpointConflict

  /** A compare-and-swap that a lease makes wait. */
  ghost function ReplaceResult(rows: Table, r: Replacement): ReplaceOutcome
  {
    if r.connector !in rows || !Unchanged(rows[r.connector], r) then Changed
    else if rows[r.connector].owner.Some? then Busy
    else if Conflicting(rows, r) then EndpointConflict
    else Accepted
  }

  ghost function Apply(rows: Table, a: Action): Table
  {
    match a
    case Claim(w, kind, limit, until, now) =>
      var taken := Taken(rows, kind, limit, now);
      map c | c in rows :: if c in taken then Leased(rows[c], w, until) else rows[c]
    case Complete(w, c, at) => if Holds(rows, w, c) then rows[c := Finished(rows[c], Connected, at)] else rows
    case Fail(w, c, at) => if Holds(rows, w, c) then rows[c := Finished(rows[c], Degraded, at)] else rows
    case Abandon(_, _) => rows
    case SetStatus(c, status, now) =>
      if c !in rows then rows
      else rows[c := Released(rows[c].(status := status, nextSync := if status == Disabled then rows[c].nextSync else now))]
    case Import(newId, kind, endpoint, credential, managed, managedId, interval, now) =>
      (match FindEndpoint(rows, kind, endpoint)
       case None => rows[newId := NewConnector(kind, endpoint, credential, managed, managedId, interval, now)]
       case Some(c) =>
         if kind == Proxmox then rows
         else if kind == Argus then rows[c := Released(rows[c].(credential := credential, status := Connected, nextSync := now))]
         else rows[c := Released(rows[c].(
           credential := credential, status := Connected, nextSync := now, managed := managed, managedId := managedId))])
    case Reopen(c, endpoint, managedId, now) =>
      if c in rows && ReopenFits(rows[c], endpoint, managedId) then rows[c := Released(rows[c].(nextSync := now))] else rows
    case Rekey(c, previous, replacement, now) =>
      if c in rows && rows[c].kind == Proxmox && rows[c].credential == previous then
        rows[c := Rekeyed(rows[c], replacement, now)]
      else rows
    case Replace(r, now) =>
      if ReplaceResult(rows, r) == Accepted then rows[r.connector := Replaced(rows[r.connector], r, now)] else rows
    case Remove(c) => rows - {c}
  }

  // ----- Runs -----

  /** The rows before action `k` of a run. */
  ghost function At(rows: Table, actions: seq<Action>, k: nat): Table
    requires k <= |actions|
  {
    if k == 0 then rows else Apply(At(rows, actions, k - 1), actions[k - 1])
  }

  /** Worker `w` takes connector `c`. */
  ghost predicate Wins(rows: Table, a: Action, w: string, c: Id)
  {
    a.Claim? && a.worker == w && c in Taken(rows, a.kind, a.limit, a.now)
  }

  /** The action writes the lease columns of connector `c`: another claim, a report, a suspension, an import, a replacement. */
  ghost predicate WritesLease(rows: Table, a: Action, c: Id)
  {
    match a
    case Claim(_, kind, limit, _, now) => c in Taken(rows, kind, limit, now)
    case Complete(w, d, _) => d == c && Holds(rows, w, c)
    case Fail(w, d, _) => d == c && Holds(rows, w, c)
    case Abandon(_, _) => false
    case SetStatus(d, _, _) => d == c
    case Import(newId, kind, endpoint, _, _, _, _, _) =>
      (match FindEndpoint(rows, kind, endpoint)
       case None => c == newId
       case Some(d) => d == c && kind != Proxmox)
    case Reopen(d, endpoint, managedId, _) => d == c && c in rows && ReopenFits(rows[c], endpoint, managedId)
    case Rekey(d, previous, _, _) => d == c && c in rows && rows[c].kind == Proxmox && rows[c].credential == previous
    case Replace(r, _) => r.connector == c && ReplaceResult(rows, r) == Accepted
    case Remove(d) => d == c
  }

  /** A lease changes hands only through an action that writes it, and only a winning claim gives one. */
  lemma LeaseStep(rows: Table, a: Action, w: string, c: Id)
    ensures Holds(Apply(rows, a), w, c) <==> Wins(rows, a, w, c) || (Holds(rows, w, c) && !WritesLease(rows, a, c))
  {
  }

  /** Claim `j` gave `c` to `w` and nothing has written its lease since. */
  ghost predicate Unsuperseded(rows: Table, actions: seq<Action>, j: nat, k: nat, w: string, c: Id)
    requires k <= |actions|
  {
    j < k && Wins(At(rows, actions, j), actions[j], w, c) &&
    forall l :: j < l < k ==> !WritesLease(At(rows, actions, l), actions[l], c)
  }

  ghost predicate NoLease(rows: Table)
  {
    forall c :: c in rows ==> rows[c].owner.None?
  }

  /** A worker holds a lease exactly if a claim of its own gave it and nothing has superseded that claim. */
  lemma {:induction false} LeaseHistory(rows: Table, actions: seq<Action>, k: nat, w: string, c: Id)
    requires NoLease(rows) && k <= |actions|
    ensures Holds(At(rows, actions, k), w, c) <==> exists j: nat :: Unsuperseded(rows, actions, j, k, w, c)
  {
    hide Apply, Wins, WritesLease;
    if k > 0 {
      var before, a := At(rows, actions, k - 1), actions[k - 1];
      LeaseHistory(rows, actions, k - 1, w, c);
      LeaseStep(before, a, w, c);
      if Wins(before, a, w, c) {
        assert Unsuperseded(rows, actions, k - 1, k, w, c);
      } else if Holds(before, w, c) && !WritesLease(before, a, c) {
        var j: nat :| Unsuperseded(rows, actions, j, k - 1, w, c);
        assert Unsuperseded(rows, actions, j, k, w, c);
      }
      if j: nat :| Unsuperseded(rows, actions, j, k, w, c) {
        if j < k - 1 {
          assert Unsuperseded(rows, actions, j, k - 1, w, c);
        }
      }
    }
  }

  // ----- Workers -----

  /** The worker ends its cycle on a connector. */
  predicate Ends(a: Action, w: string, c: Id)
  {
    (a.Complete? || a.Fail? || a.Abandon?) && a.worker == w && a.connector == c
  }

  /** The cycle of `w` on `c` that is under way before action `k` began with claim `j`. */
  ghost predicate Began(rows: Table, actions: seq<Action>, j: nat, k: nat, w: string, c: Id)
    requires k <= |actions|
  {
    j < k && Wins(At(rows, actions, j), actions[j], w, c) && forall l :: j < l < k ==> !Ends(actions[l], w, c)
  }

  /** Workers wait for their cycles before they claim again. */
  ghost predicate Disciplined(rows: Table, actions: seq<Action>)
  {
    forall j, k, w, c :: 0 <= k < |actions| && Began(rows, actions, j, k, w, c) ==> !Wins(At(rows, actions, k), actions[k], w, c)
  }

  /** A report changes the connector exactly if it still holds the lease. */
  predicate TakesEffect(rows: Table, a: Action)
  {
    (a.Complete? || a.Fail?) && Holds(rows, a.worker, a.connector)
  }

  /**
   * The report of a cycle takes effect if and only if nothing superseded the very claim the cycle began with: no other
   * claim, suspension, import or replacement. A later lease of the same worker cannot be mistaken for it.
   */
  lemma ReportCountsForItsOwnClaim(rows: Table, actions: seq<Action>, j: nat, k: nat)
    requires NoLease(rows) && k < |actions| && Disciplined(rows, actions) && (actions[k].Complete? || actions[k].Fail?)
    requires Began(rows, actions, j, k, actions[k].worker, actions[k].connector)
    ensures TakesEffect(At(rows, actions, k), actions[k]) <==>
      Unsuperseded(rows, actions, j, k, actions[k].worker, actions[k].connector)
  {
    var w, c := actions[k].worker, actions[k].connector;
    LeaseHistory(rows, actions, k, w, c);
    if TakesEffect(At(rows, actions, k), actions[k]) {
      var i: nat :| Unsuperseded(rows, actions, i, k, w, c);
      if i > j {
        assert Began(rows, actions, j, i, w, c);
      }
    }
  }

  // ----- Suspension -----

  /** A suspended connector is leased to nobody. */
  ghost predicate Rested(rows: Table)
  {
    forall c :: c in rows && rows[c].status == Disabled ==> rows[c].owner.None?
  }

  lemma RestedStep(rows: Table, a: Action)
    requires Rested(rows)
    ensures Rested(Apply(rows, a))
  {
    if a.Claim? {
      forall c | c in rows && c in Taken(rows, a.kind, a.limit, a.now)
        ensures rows[c].status != Disabled
      {
        TakenAreDue(rows, a.kind, a.limit, a.now, c);
      }
    }
  }

  /** An administrator sets the status of the connector, imports it anew or removes it. */
  ghost predicate Reinstates(rows: Table, a: Action, c: Id)
  {
    match a
    case SetStatus(d, _, _) => d == c
    case Import(_, _, _, _, _, _, _, _) => WritesLease(rows, a, c)
    case Remove(d) => d == c
    case _ => false
  }

  /** An administrator gives the connector another credential or connection. */
  predicate Reconnects(a: Action, c: Id)
  {
    (a.Rekey? && a.connector == c) || (a.Replace? && a.replacement.connector == c)
  }

  /** Nothing else brings a suspended connector back; workers do not touch it at all. */
  lemma OthersLeaveSuspension(rows: Table, a: Action, c: Id)
    requires Rested(rows) && c in rows && rows[c].status == Disabled && !Reinstates(rows, a, c)
    ensures c in Apply(rows, a) && Apply(rows, a)[c].status == Disabled
    ensures !Reconnects(a, c) ==> Apply(rows, a)[c] == rows[c]
  {
    if a.Claim? && c in Taken(rows, a.kind, a.limit, a.now) {
      TakenAreDue(rows, a.kind, a.limit, a.now, c);
    }
  }

  /** In every run, a suspended connector has no owner. */
  lemma {:induction false} RunRested(rows: Table, actions: seq<Action>, k: nat)
    requires Rested(rows) && k <= |actions|
    ensures Rested(At(rows, actions, k))
  {
    if k > 0 {
      RunRested(rows, actions, k - 1);
      RestedStep(At(rows, actions, k - 1), actions[k - 1]);
    }
  }

  /**
   * Whatever workers and administrators do meanwhile, a suspended connector stays suspended and leased to nobody until an
   * administrator acts on its status; it stays exactly as it was if its connection is not replaced either.
   */
  lemma {:induction false} SuspensionLasts(rows: Table, actions: seq<Action>, j: nat, k: nat, c: Id)
    requires Rested(rows) && j <= k <= |actions| && c in At(rows, actions, j) && At(rows, actions, j)[c].status == Disabled
    requires forall l :: j <= l < k ==> !Reinstates(At(rows, actions, l), actions[l], c)
    ensures c in At(rows, actions, k) && At(rows, actions, k)[c].status == Disabled && At(rows, actions, k)[c].owner.None?
    ensures (forall l :: j <= l < k ==> !Reconnects(actions[l], c)) ==> At(rows, actions, k)[c] == At(rows, actions, j)[c]
    decreases k
  {
    hide Apply, Reinstates;
    RunRested(rows, actions, k);
    if j < k {
      SuspensionLasts(rows, actions, j, k - 1, c);
      RunRested(rows, actions, k - 1);
      OthersLeaveSuspension(At(rows, actions, k - 1), actions[k - 1], c);
    }
  }

  // ----- Leases exclude one another -----

  /** The guard under which a cycle writes its discoveries and observations. */
  predicate Guarded(rows: Table, w: string, c: Id, now: Time)
  {
    Holds(rows, w, c) && rows[c].until.Some? && now < rows[c].until.value && rows[c].status != Disabled
  }

  /** While the guard of a worker holds, no claim made at that time takes the connector away. */
  lemma GuardedIsNotTaken(rows: Table, a: Action, w: string, c: Id)
    requires a.Claim? && Guarded(rows, w, c, a.now)
    ensures Guarded(Apply(rows, a), w, c, a.now)
  {
    if c in Taken(rows, a.kind, a.limit, a.now) {
      TakenAreDue(rows, a.kind, a.limit, a.now, c);
    }
  }

  // ----- Connections -----

  /** One connector per kind and endpoint. */
  ghost predicate UniqueEndpoints(rows: Table)
  {
    forall c, d :: c in rows && d in rows && rows[c].kind == rows[d].kind && Fold(rows[c].endpoint) == Fold(rows[d].endpoint) ==> c == d
  }

  lemma UniqueEndpointsStep(rows: Table, a: Action)
    requires UniqueEndpoints(rows)
    ensures UniqueEndpoints(Apply(rows, a))
  {
    var after := Apply(rows, a);
    if a.Import? && FindEndpoint(rows, a.kind, a.endpoint).None? {
      assert forall c :: c in rows ==> !AtEndpoint(rows, c, a.kind, a.endpoint);
    } else if a.Replace? && ReplaceResult(rows, a.replacement) == Accepted {
      var r := a.replacement;
      assert forall c :: c in rows && c != r.connector ==> !AtEndpoint(rows, c, r.kind, r.endpoint);
    } else {
      assert forall c :: c in after ==> c in rows && after[c].kind == rows[c].kind && after[c].endpoint == rows[c].endpoint;
    }
  }

  /** Sealing yields a value that was never stored before. */
  predicate Seals(a: Action, stale: string)
  {
    && (a.Import? ==> a.credential != stale)
    && (a.Rekey? ==> a.sealed != stale)
    && (a.Replace? ==> a.replacement.credential != stale)
  }

  ghost predicate Gone(rows: Table, c: Id, stale: string)
  {
    c in rows ==> rows[c].credential != stale
  }

  lemma GoneStep(rows: Table, a: Action, c: Id, stale: string)
    requires Gone(rows, c, stale) && Seals(a, stale)
    ensures Gone(Apply(rows, a), c, stale)
  {
  }

  lemma {:induction false} RunGone(rows: Table, actions: seq<Action>, j: nat, k: nat, c: Id, stale: string)
    requires j <= k <= |actions| && Gone(At(rows, actions, j), c, stale)
    requires forall l :: j <= l < k ==> Seals(actions[l], stale)
    ensures Gone(At(rows, actions, k), c, stale)
    decreases k
  {
    if j < k {
      RunGone(rows, actions, j, k - 1, c, stale);
      GoneStep(At(rows, actions, k - 1), actions[k - 1], c, stale);
    }
  }

  /** Of the replacements prepared against one revision of a connection, only the first to commit is accepted. */
  lemma OneReplacementPerRevision(rows: Table, actions: seq<Action>, j: nat, k: nat)
    requires j < k < |actions| && actions[j].Replace? && actions[k].Replace?
    requires actions[j].replacement.connector == actions[k].replacement.connector
    requires actions[j].replacement.previousCredential == actions[k].replacement.previousCredential
    requires forall l :: j <= l < k ==> Seals(actions[l], actions[j].replacement.previousCredential)
    requires ReplaceResult(At(rows, actions, j), actions[j].replacement) == Accepted
    ensures ReplaceResult(At(rows, actions, k), actions[k].replacement) == Changed
  {
    var r := actions[j].replacement;
    assert Seals(actions[j], r.previousCredential);
    assert Gone(At(rows, actions, j + 1), r.connector, r.previousCredential);
    RunGone(rows, actions, j + 1, k, r.connector, r.previousCredential);
  }

  /** An accepted replacement keeps the identity, the suspension and, for a managed account, the way to clean it up. */
  lemma ReplacementKeeps(rows: Table, r: Replacement, now: Time)
    requires ReplaceResult(rows, r) == Accepted && rows[r.connector].managed
    ensures var after := Apply(rows, Replace(r, now))[r.connector];
      && (after.status == Disabled <==> rows[r.connector].status == Disabled) && after.owner.None?
      && after.endpoint == r.endpoint && after.credential == r.credential
      // the endpoint that holds the managed account stays reachable with a credential it accepts
      && (rows[r.connector].cleanupEndpoint == "" && r.endpoint != rows[r.connector].endpoint ==>
            after.cleanupEndpoint == rows[r.connector].endpoint && after.cleanupCredential == rows[r.connector].credential)
      && (rows[r.connector].cleanupEndpoint != "" ==> after.cleanupEndpoint == rows[r.connector].cleanupEndpoint)
      && (after.cleanupEndpoint != "" && after.cleanupEndpoint == after.endpoint ==> after.cleanupCredential == r.credential)
  {
  }

  // ----- The table itself -----

  /** The rows of an ordered query with a limit. */
  method SelectEarliest(ranks: map<Id, int>, limit: nat) returns (taken: set<Id>)
    ensures taken == TakeFirst(ranks, limit)
  {
    var rest, left: nat := ranks, limit;
    taken := {};
    while left > 0 && rest != map[]
      invariant taken + TakeFirst(rest, left) == TakeFirst(ranks, limit)
      decreases left
    {
      var next := SelectFirst(rest);
      taken, rest, left := taken + {next.value}, rest - {next.value}, left - 1;
    }
  }

  /** Row `c` becomes `row`, and every other row stays as it was. */
  predicate OnlyRow(before: Table, after: Table, c: Id, row: Connector)
  {
    && after.Keys == before.Keys + {c} && after[c] == row
    && forall d :: d in before && d != c ==> after[d] == before[d]
  }

  class Connectors {
    var rows: Table

    constructor ()
      ensures rows == map[] && NoLease(rows) && Rested(rows) && UniqueEndpoints(rows)
    {
      rows := map[];
    }

    /** Leases up to `limit` due connectors, the ones that have waited longest first. */
    method ClaimDueConnector(kind: Kind, worker: string, limit: nat, until: Time, now: Time) returns (claimed: set<Id>)
      modifies this
      ensures rows == Apply(old(rows), Claim(worker, kind, limit, until, now))
      ensures claimed == Taken(old(rows), kind, limit, now)
      // what is claimed was due, and is leased; the rest of the table stays as it was
      ensures rows.Keys == old(rows).Keys && claimed <= rows.Keys
      ensures forall c :: c in claimed ==> var row := old(rows)[c];
        && row.kind == kind && row.status != Disabled && row.nextSync <= now && (row.until.Some? ==> row.until.value < now)
        && rows[c] == row.(owner := Some(worker), until := Some(until))
      ensures forall c :: c in rows && c !in claimed ==> rows[c] == old(rows)[c]
      // a due connector is passed over only for others that have waited longer
      ensures |claimed| <= limit
      ensures forall c :: c in rows && c !in claimed && rows[c].kind == kind && rows[c].status != Disabled && rows[c].nextSync <= now ==>
        (rows[c].until.Some? && now <= rows[c].until.value) || (|claimed| == limit && AllBefore(old(rows), claimed, c))
    {
      hide TakeFirst, AllBefore, Taken;
      ClaimedEarliest(rows, kind, limit, now);
      claimed := SelectEarliest(DueRanks(rows, kind, now), limit);
      rows := map c | c in rows :: if c in claimed then Leased(rows[c], worker, until) else rows[c];
    }

    method CompleteConnectorSync(c: Id, worker: string, at: Time) returns (done: bool)
      modifies this
      ensures rows == Apply(old(rows), Complete(worker, c, at)) && done == Holds(old(rows), worker, c)
      ensures done <==> c in old(rows) && old(rows)[c].owner == Some(worker)
      ensures !done ==> rows == old(rows)
      ensures done ==> var row := old(rows)[c]; OnlyRow(old(rows), rows, c,
        row.(status := Connected, nextSync := at + row.interval, owner := None, until := None))
    {
      done := c in rows && rows[c].owner == Some(worker);
      if done {
        rows := rows[c := rows[c].(status := Connected, nextSync := at + rows[c].interval, owner := None, until := None)];
      }
    }

    method FailConnectorSync(c: Id, worker: string, at: Time) returns (done: bool)
      modifies this
      ensures rows == Apply(old(rows), Fail(worker, c, at)) && done == Holds(old(rows), worker, c)
      ensures done <==> c in old(rows) && old(rows)[c].owner == Some(worker)
      ensures !done ==> rows == old(rows)
      ensures done ==> var row := old(rows)[c]; OnlyRow(old(rows), rows, c,
        row.(status := Degraded, nextSync := at + row.interval, owner := None, until := None))
    {
      done := c in rows && rows[c].owner == Some(worker);
      if done {
        rows := rows[c := rows[c].(status := Degraded, nextSync := at + rows[c].interval, owner := None, until := None)];
      }
    }

    method ChangeStatus(c: Id, status: Status, now: Time) returns (found: bool)
      modifies this
      ensures rows == Apply(old(rows), SetStatus(c, status, now)) && found == (c in old(rows))
      ensures !found ==> rows == old(rows)
      ensures found ==> var row := old(rows)[c]; OnlyRow(old(rows), rows, c,
        row.(status := status, nextSync := if status == Disabled then row.nextSync else now, owner := None, until := None))
    {
      found := c in rows;
      if found {
        var next := if status == Disabled then rows[c].nextSync else now;
        rows := rows[c := rows[c].(status := status, nextSync := next, owner := None, until := None)];
      }
    }

    /** Adds a connector, or takes over the one its endpoint already has; Proxmox never does the latter. */
    method ImportConnector(newId: Id, kind: Kind, endpoint: string, credential: string, managed: bool,
        managedId: string, interval: int, now: Time)
      returns (imported: Option<Id>)
      requires newId !in rows
      modifies this
      ensures rows == Apply(old(rows), Import(newId, kind, endpoint, credential, managed, managedId, interval, now))
      ensures imported.None? <==> kind == Proxmox && FindEndpoint(old(rows), kind, endpoint).Some?
      ensures imported.Some? ==> AtEndpoint(rows, imported.value, kind, endpoint) && rows[imported.value].owner.None?
      ensures imported.None? ==> rows == old(rows)
      // a new row only where no connector of this kind has the endpoint, whatever its case
      ensures imported == Some(newId) ==>
        && (forall d :: d in old(rows) && old(rows)[d].kind == kind ==> Fold(old(rows)[d].endpoint) != Fold(endpoint))
        && OnlyRow(old(rows), rows, newId,
             Connector(kind, endpoint, credential, Connected, None, None, now, interval, managed, managedId, "", ""))
      ensures imported.Some? && imported.value != newId ==>
        && imported.value in old(rows) && kind != Proxmox
        && var row := old(rows)[imported.value];
        && row.kind == kind && Fold(row.endpoint) == Fold(endpoint)
        && OnlyRow(old(rows), rows, imported.value, row.(
             credential := credential, status := Connected, nextSync := now, owner := None, until := None,
             managed := if kind == Argus then row.managed else managed,
             managedId := if kind == Argus then row.managedId else managedId))
    {
      hide Fold, TakeFirst;
      var found := SelectFirst(map c | c in rows && AtEndpoint(rows, c, kind, endpoint) :: 0);
      assert found == FindEndpoint(rows, kind, endpoint);
      match found
      case None =>
        assert forall d :: d in rows ==> !AtEndpoint(rows, d, kind, endpoint);
        rows := rows[newId := NewConnector(kind, endpoint, credential, managed, managedId, interval, now)];
        return Some(newId);
      case Some(c) =>
        if kind == Proxmox {
          return None;
        }
        var row := rows[c].(credential := credential, status := Connected, nextSync := now, owner := None, until := None);
        if kind != Argus {
          row := row.(managed := managed, managedId := managedId);
        }
        rows := rows[c := row];
        return Some(c);
    }

    method ReopenInventory(c: Id, endpoint: string, managedId: string, now: Time) returns (done: bool)
      modifies this
      ensures rows == Apply(old(rows), Reopen(c, endpoint, managedId, now))
      ensures done <==>
        && c in old(rows) && old(rows)[c].kind == Proxmox && old(rows)[c].endpoint == endpoint
        && old(rows)[c].managedId == managedId && old(rows)[c].status != Disabled
      ensures !done ==> rows == old(rows)
      ensures done ==> OnlyRow(old(rows), rows, c, old(rows)[c].(nextSync := now, owner := None, until := None))
    {
      done := c in rows && ReopenFits(rows[c], endpoint, managedId);
      if done {
        rows := rows[c := rows[c].(nextSync := now, owner := None, until := None)];
      }
    }

    method ReplaceProxmoxCredential(c: Id, previous: string, sealed: string, now: Time) returns (done: bool)
      modifies this
      ensures rows == Apply(old(rows), Rekey(c, previous, sealed, now))
      ensures done <==> c in old(rows) && old(rows)[c].kind == Proxmox && old(rows)[c].credential == previous
      ensures !done ==> rows == old(rows)
      // an endpoint still to be cleaned up keeps a credential it accepts
      ensures done ==> var row := old(rows)[c]; OnlyRow(old(rows), rows, c, row.(
        credential := sealed, nextSync := now, owner := None, until := None,
        cleanupCredential := if row.cleanupEndpoint == row.endpoint then sealed else row.cleanupCredential))
    {
      done := c in rows && rows[c].kind == Proxmox && rows[c].credential == previous;
      if done {
        var cleanup := if rows[c].cleanupEndpoint == rows[c].endpoint then sealed else rows[c].cleanupCredential;
        rows := rows[c := rows[c].(credential := sealed, cleanupCredential := cleanup, nextSync := now, owner := None, until := None)];
      }
    }

    /** Replaces the connection, or tells why not: someone else changed it, a cycle is running, or the endpoint is taken. */
    method ReplaceConnection(r: Replacement, now: Time) returns (outcome: ReplaceOutcome)
      modifies this
      ensures rows == Apply(old(rows), Replace(r, now)) && outcome == ReplaceResult(old(rows), r)
      ensures outcome != Changed <==>
        && r.connector in old(rows) && old(rows)[r.connector].kind == r.kind
        && old(rows)[r.connector].endpoint == r.previousEndpoint && old(rows)[r.connector].credential == r.previousCredential
      ensures outcome == Busy ==> r.connector in old(rows) && old(rows)[r.connector].owner.Some?
      ensures outcome in {EndpointConflict, Accepted} ==> r.connector in old(rows) && old(rows)[r.connector].owner.None?
      ensures outcome == Accepted ==> forall d :: d in old(rows) && d != r.connector && old(rows)[d].kind == r.kind ==>
        Fold(old(rows)[d].endpoint) != Fold(r.endpoint)
      ensures outcome == EndpointConflict ==>
        exists d :: d in old(rows) && d != r.connector && old(rows)[d].kind == r.kind && Fold(old(rows)[d].endpoint) == Fold(r.endpoint)
      ensures outcome != Accepted ==> rows == old(rows)
      ensures outcome == Accepted ==> var row := old(rows)[r.connector];
        var moves := row.managed && row.cleanupEndpoint == "" && row.endpoint != r.endpoint;
        OnlyRow(old(rows), rows, r.connector, row.(
          endpoint := r.endpoint, credential := r.credential, nextSync := now, owner := None, until := None,
          status := if row.status == Disabled then Disabled else Connected,
          cleanupEndpoint := if moves then row.endpoint else row.cleanupEndpoint,
          cleanupCredential := if moves then row.credential
            else if row.cleanupEndpoint == r.endpoint then r.credential else row.cleanupCredential))
    {
      if r.connector in rows && Unchanged(rows[r.connector], r) && rows[r.connector].owner.None? {
        if Conflicting(rows, r) {
          return EndpointConflict;
        }
        var row := rows[r.connector];
        var moves := row.managed && row.cleanupEndpoint == "" && row.endpoint != r.endpoint;
        rows := rows[r.connector := row.(
          endpoint := r.endpoint, credential := r.credential,
          cleanupEndpoint := if moves then row.endpoint else row.cleanupEndpoint,
          cleanupCredential := if moves then row.credential
            else if row.cleanupEndpoint == r.endpoint then r.credential else row.cleanupCredential,
          status := if row.status == Disabled then Disabled else Connected, nextSync := now, owner := None, until := None)];
        return Accepted;
      }
      if r.connector in rows && Unchanged(rows[r.connector], r) {
        return Busy;
      }
      return Changed;
    }
  }
}
