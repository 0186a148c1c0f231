/** Pairing a device: invitation, claim, confirmation, and one hand-out of its credential. */
module Pairing {
  import opened Common

  type Id = nat
  type Time = int

  const LIFETIME := 600

  /** A sealed secret; opening it gives the secret back. */
  datatype Sealed = Sealed(secret: string)

  datatype ClaimInput = ClaimInput(name: string, platform: string, wellFormed: bool)

  datatype Invitation = Invitation(
    user: string, digest: string, expiresAt: Time,
    name: string, platform: string,
    claimedAt: Option<Time>, confirmedAt: Option<Time>, cancelledAt: Option<Time>, consumedAt: Option<Time>,
    device: Option<Id>, sealed: Option<Sealed>
  )

  datatype Device = Device(user: string, name: string, platform: string, digest: string)

  datatype Store = Store(users: set<string>, pairings: map<Id, Invitation>, devices: map<Id, Device>)

  datatype Error = NotFound | Conflict | Expired | Consumed | InvalidInput

  datatype Status = AwaitingScan | AwaitingConfirmation | Confirmed | CredentialConsumed | Lapsed | Cancelled

  datatype Reply =
    | Created(id: Id)
    | Waiting(status: Status)
    | Accepted(device: Id)
    | Credential(device: Id, token: string)
    | Done
    | Refused(error: Error)

  /** Tokens are hashed before they are stored; a malformed one has no digest. */
  datatype Hash = Hash(digest: string -> Option<string>)

  datatype Step =
    | Create(id: Id, user: string, token: string, now: Time)
    | Claim(token: string, input: ClaimInput, now: Time)
    | Confirm(user: string, pairing: Id, device: Id, token: string, now: Time)
    | Collect(token: string, now: Time)
    | Cancel(user: string, pairing: Id, now: Time)

  /** Fresh ids and random tokens are what the server draws for itself. */
  predicate Enabled(h: Hash, s: Store, step: Step)
  {
    match step
    case Create(id, _, token, _) =>
      id !in s.pairings && h.digest(token).Some? && forall p :: p in s.pairings ==> s.pairings[p].digest != h.digest(token).value
    case Confirm(_, _, device, token, _) => device !in s.devices && h.digest(token).Some?
    case _ => true
  }

  // ----- The visible status -----

  function StatusOf(now: Time, row: Invitation): Status
  {
    if row.cancelledAt.Some? then Cancelled
    else if now >= row.expiresAt && row.confirmedAt.None? then Lapsed
    else if row.consumedAt.Some? then CredentialConsumed
    else if row.confirmedAt.Some? then Confirmed
    else if row.claimedAt.Some? then AwaitingConfirmation
    else AwaitingScan
  }

  /** A pairing can still go from one status to the other, or stay. */
  predicate Forward(a: Status, b: Status)
  {
    a == b ||
    match a
    case AwaitingScan => true
    case AwaitingConfirmation => b != AwaitingScan
    case Confirmed => b == CredentialConsumed
    case Lapsed => b == Cancelled
    case _ => false
  }

  lemma ForwardIsTransitive(a: Status, b: Status, c: Status)
    requires Forward(a, b) && Forward(b, c)
    ensures Forward(a, c)
  {
  }

  // ----- Steps -----

  ghost predicate Carries(h: Hash, s: Store, p: Id, token: string)
  {
    p in s.pairings && h.digest(token) == Some(s.pairings[p].digest)
  }

  ghost function Lookup(h: Hash, s: Store, token: string): (r: Option<Id>)
    ensures r.Some? ==> Carries(h, s, r.value, token)
    ensures r.None? ==> forall p :: !Carries(h, s, p, token)
  {
    if exists p :: Carries(h, s, p, token) then
      var p :| Carries(h, s, p, token);
      Some(p)
    else None
  }

  predicate Claimable(row: Invitation, now: Time)
  {
    row.claimedAt.None? && row.confirmedAt.None? && row.cancelledAt.None? && row.expiresAt > now
  }

  function ClaimError(row: Invitation, now: Time): Error
  {
    if row.cancelledAt.Some? || row.claimedAt.Some? || row.confirmedAt.Some? then Conflict
    else if now >= row.expiresAt then Expired else Conflict
  }

  function ConfirmError(row: Invitation, now: Time): Option<Error>
  {
    if row.cancelledAt.Some? || row.confirmedAt.Some? then Some(Conflict)
    else if now >= row.expiresAt then Some(Expired)
    else if row.claimedAt.None? then Some(Conflict)
    else None
  }

  function CollectReply(row: Invitation, now: Time): Reply
  {
    if row.cancelledAt.Some? then Refused(Conflict)
    else if row.confirmedAt.None? && now >= row.expiresAt then Refused(Expired)
    else if row.consumedAt.Some? || (row.confirmedAt.Some? && row.sealed.None?) then Refused(Consumed)
    else if row.confirmedAt.None? then Waiting(if row.claimedAt.Some? then AwaitingConfirmation else AwaitingScan)
    else Credential(if row.device.Some? then row.device.value else 0, row.sealed.value.secret)
  }

  ghost function Answer(h: Hash, s: Store, step: Step): Reply
  {
    match step
    case Create(id, user, token, now) => if user in s.users then Created(id) else Refused(NotFound)
    case Claim(token, input, now) =>
      if h.digest(token).None? then Refused(NotFound)
      else if !input.wellFormed then Refused(InvalidInput)
      else (
        match Lookup(h, s, token)
        case None => Refused(NotFound)
        case Some(p) =>
          if Claimable(s.pairings[p], now) then Waiting(AwaitingConfirmation) else Refused(ClaimError(s.pairings[p], now)))
    case Confirm(user, p, device, token, now) =>
      if p !in s.pairings || s.pairings[p].user != user then Refused(NotFound)
      else if ConfirmError(s.pairings[p], now).Some? then Refused(ConfirmError(s.pairings[p], now).value)
      else Accepted(device)
    case Collect(token, now) =>
      (match Lookup(h, s, token)
       case None => Refused(NotFound)
       case Some(p) => CollectReply(s.pairings[p], now))
    case Cancel(user, p, now) =>
      if p in s.pairings && s.pairings[p].user == user && s.pairings[p].confirmedAt.None? && s.pairings[p].cancelledAt.None? then Done
      else Refused(NotFound)
  }

  /** The pairing a successful step writes, and what it becomes. */
  ghost function Written(h: Hash, s: Store, step: Step): (r: Option<(Id, Invitation)>)
  {
    if Answer(h, s, step).Refused? then None
    else
      match step
      case Create(id, user, token, now) =>
        if h.digest(token).None? then None
        else Some((id, Invitation(user, h.digest(token).value, now + LIFETIME, "", "", None, None, None, None, None, None)))
      case Claim(token, input, now) =>
        (match Lookup(h, s, token)
         case None => None
         case Some(p) => Some((p, s.pairings[p].(name := input.name, platform := input.platform, claimedAt := Some(now)))))
      case Confirm(_, p, device, token, now) =>
        Some((p, s.pairings[p].(confirmedAt := Some(now), device := Some(device), sealed := Some(Sealed(token)))))
      case Collect(token, now) =>
        (match Lookup(h, s, token)
         case None => None
         case Some(p) =>
           if Answer(h, s, step).Credential? then Some((p, s.pairings[p].(consumedAt := Some(now), sealed := None))) else None)
      case Cancel(_, p, now) => Some((p, s.pairings[p].(cancelledAt := Some(now))))
  }

  ghost function Next(h: Hash, s: Store, step: Step): Store
  {
    var devices :=
      if step.Confirm? && Answer(h, s, step).Accepted? && h.digest(step.token).Some? then
        var row := s.pairings[step.pairing];
        s.devices[step.device := Device(row.user, row.name, row.platform, h.digest(step.token).value)]
      else s.devices;
    match Written(h, s, step)
    case None => s
    case Some((p, row)) => Store(s.users, s.pairings[p := row], devices)
  }

  // ----- What every state satisfies -----

  predicate RowOk(h: Hash, devices: map<Id, Device>, row: Invitation)
  {
    && (row.confirmedAt.Some? ==> row.claimedAt.Some? && row.cancelledAt.None? && row.device.Some?)
    && (row.device.Some? ==> row.confirmedAt.Some? && row.device.value in devices)
    && (row.consumedAt.Some? ==> row.confirmedAt.Some?)
    // nothing is claimed or confirmed once the invitation has expired
    && (row.claimedAt.Some? ==> row.claimedAt.value < row.expiresAt)
    && (row.confirmedAt.Some? ==> row.confirmedAt.value < row.expiresAt)
    && (row.sealed.Some? <==> row.confirmedAt.Some? && row.consumedAt.None?)
    // the credential kept for the device is the one the device will be recognised by
    && (row.sealed.Some? ==>
          && row.device.Some? && row.device.value in devices && devices[row.device.value].user == row.user
          && h.digest(row.sealed.value.secret) == Some(devices[row.device.value].digest))
  }

  ghost predicate Inv(h: Hash, s: Store)
  {
    && (forall p :: p in s.pairings ==> RowOk(h, s.devices, s.pairings[p]))
    && (forall p, q :: p in s.pairings && q in s.pairings && s.pairings[p].digest == s.pairings[q].digest ==> p == q)
    && (forall p, q :: p in s.pairings && q in s.pairings && s.pairings[p].device.Some? && s.pairings[p].device == s.pairings[q].device ==> p == q)
    && (forall d :: d in s.devices ==> exists p :: p in s.pairings && s.pairings[p].device == Some(d))
  }

  lemma RowIsOk(h: Hash, s: Store, p: Id)
    requires Inv(h, s) && p in s.pairings
    ensures RowOk(h, s.devices, s.pairings[p])
  {
  }

  lemma StepInv(h: Hash, s: Store, step: Step)
    requires Inv(h, s) && Enabled(h, s, step)
    ensures Inv(h, Next(h, s, step))
  {
    hide Answer, Written, RowOk, Enabled;
    match Written(h, s, step)
    case None =>
    case Some((p, row)) =>
      WrittenOk(h, s, step, p, row);
      var s2 := Next(h, s, step);
      forall d | d in s2.devices
        ensures exists q :: q in s2.pairings && s2.pairings[q].device == Some(d)
      {
        if d in s.devices {
          var q :| q in s.pairings && s.pairings[q].device == Some(d);
          assert s2.pairings[q].device == Some(d);
        } else {
          assert s2.pairings[p].device == Some(d);
        }
      }
  }

  /** What a successful step does to the row it writes. */
  ghost predicate Transition(h: Hash, s: Store, step: Step, p: Id, row: Invitation)
  {
    match step
    case Create(id, user, token, now) =>
      && p == id && h.digest(token) == Some(row.digest)
      && row == Invitation(user, row.digest, now + LIFETIME, "", "", None, None, None, None, None, None)
    case Claim(_, input, now) =>
      && p in s.pairings && Claimable(s.pairings[p], now)
      && row == s.pairings[p].(name := input.name, platform := input.platform, claimedAt := Some(now))
    case Confirm(_, q, device, token, now) =>
      && p == q && p in s.pairings && ConfirmError(s.pairings[p], now).None?
      && row == s.pairings[p].(confirmedAt := Some(now), device := Some(device), sealed := Some(Sealed(token)))
    case Collect(_, now) =>
      && p in s.pairings && CollectReply(s.pairings[p], now).Credential?
      && row == s.pairings[p].(consumedAt := Some(now), sealed := None)
    case Cancel(_, q, now) =>
      && p == q && p in s.pairings && s.pairings[p].confirmedAt.None? && s.pairings[p].cancelledAt.None?
      && row == s.pairings[p].(cancelledAt := Some(now))
  }

  lemma WrittenTransition(h: Hash, s: Store, step: Step, p: Id, row: Invitation)
    requires Written(h, s, step) == Some((p, row))
    ensures Transition(h, s, step, p, row)
  {
  }

  lemma WrittenOk(h: Hash, s: Store, step: Step, p: Id, row: Invitation)
    requires Inv(h, s) && Enabled(h, s, step) && Written(h, s, step) == Some((p, row))
    ensures var s2 := Next(h, s, step);
      && s2.pairings == s.pairings[p := row]
      && (forall q :: q in s2.pairings ==> RowOk(h, s2.devices, s2.pairings[q]))
      && (forall d :: d in s.devices ==> d in s2.devices && s2.devices[d] == s.devices[d])
      && (forall d :: d in s2.devices && d !in s.devices ==> row.device == Some(d))
      && (p in s.pairings ==> row.digest == s.pairings[p].digest && (row.device == s.pairings[p].device || s.pairings[p].device.None?))
      && (p !in s.pairings ==> row.device.None? && forall q :: q in s.pairings ==> s.pairings[q].digest != row.digest)
      && (row.device.Some? && (p in s.pairings ==> row.device != s.pairings[p].device) ==>
            forall q :: q in s.pairings ==> s.pairings[q].device != row.device)
  {
    WrittenTransition(h, s, step, p, row);
    hide Answer, Written;
    assert Next(h, s, step).pairings == s.pairings[p := row];
    forall q | q in s.pairings
      ensures RowOk(h, s.devices, s.pairings[q])
    {
    }
  }

  // ----- Runs -----

  /** The state before step `k` of a run. */
  ghost function At(h: Hash, s: Store, steps: seq<Step>, k: nat): Store
    requires k <= |steps|
  {
    if k == 0 then s else Next(h, At(h, s, steps, k - 1), steps[k - 1])
  }

  ghost predicate Possible(h: Hash, s: Store, steps: seq<Step>)
  {
    forall k :: 0 <= k < |steps| ==> Enabled(h, At(h, s, steps, k), steps[k])
  }

  lemma {:induction false} RunInv(h: Hash, s: Store, steps: seq<Step>, k: nat)
    requires Inv(h, s) && Possible(h, s, steps) && k <= |steps|
    ensures Inv(h, At(h, s, steps, k))
  {
    if k > 0 {
      RunInv(h, s, steps, k - 1);
      assert Enabled(h, At(h, s, steps, k - 1), steps[k - 1]);
      StepInv(h, At(h, s, steps, k - 1), steps[k - 1]);
    }
  }

  /** The step creates a device for pairing `p`. */
  ghost predicate Confirms(h: Hash, s: Store, step: Step, p: Id)
  {
    step.Confirm? && step.pairing == p && Answer(h, s, step).Accepted?
  }

  /** The step hands out the credential of pairing `p`. */
  ghost predicate HandsOut(h: Hash, s: Store, step: Step, p: Id)
  {
    step.Collect? && Lookup(h, s, step.token) == Some(p) && Answer(h, s, step).Credential?
  }

  ghost predicate Claims(h: Hash, s: Store, step: Step, p: Id)
  {
    step.Claim? && Lookup(h, s, step.token) == Some(p) && !Answer(h, s, step).Refused?
  }

  /** What a pairing has been through never reverts. */
  predicate Kept(row: Invitation, row2: Invitation)
  {
    && row2.user == row.user && row2.digest == row.digest && row2.expiresAt == row.expiresAt
    && (row.claimedAt.Some? ==> row2.claimedAt == row.claimedAt)
    && (row.confirmedAt.Some? ==> row2.confirmedAt == row.confirmedAt && row2.device == row.device)
    && (row.cancelledAt.Some? ==> row2.cancelledAt == row.cancelledAt)
    && (row.consumedAt.Some? ==> row2.consumedAt == row.consumedAt)
  }

  /** Each mark of a pairing is set by one kind of step only. */
  lemma StepMarks(h: Hash, s: Store, step: Step, p: Id)
    requires Inv(h, s) && Enabled(h, s, step) && p in s.pairings
    ensures var s2 := Next(h, s, step);
      && p in s2.pairings && Kept(s.pairings[p], s2.pairings[p])
      && (s2.pairings[p].claimedAt.Some? <==> s.pairings[p].claimedAt.Some? || Claims(h, s, step, p))
      && (s2.pairings[p].confirmedAt.Some? <==> s.pairings[p].confirmedAt.Some? || Confirms(h, s, step, p))
      && (s2.pairings[p].consumedAt.Some? <==> s.pairings[p].consumedAt.Some? || HandsOut(h, s, step, p))
  {
    match Written(h, s, step)
    case None =>
    case Some((q, row)) =>
      WrittenTransition(h, s, step, q, row);
      assert RowOk(h, s.devices, s.pairings[p]);
  }

  lemma StepCreates(h: Hash, s: Store, step: Step, p: Id)
    requires Inv(h, s) && Enabled(h, s, step) && p !in s.pairings
    ensures !Claims(h, s, step, p) && !Confirms(h, s, step, p) && !HandsOut(h, s, step, p)
    ensures var s2 := Next(h, s, step); p in s2.pairings ==>
      s2.pairings[p].claimedAt.None? && s2.pairings[p].confirmedAt.None? && s2.pairings[p].consumedAt.None?
  {
    match Written(h, s, step)
    case None =>
    case Some((q, row)) => WrittenTransition(h, s, step, q, row);
  }

  /** A pairing is marked exactly if some earlier step marked it. */
  lemma {:induction false} MarksHaveCauses(h: Hash, s: Store, steps: seq<Step>, k: nat, p: Id)
    requires Inv(h, s) && s.pairings == map[] && Possible(h, s, steps) && k <= |steps| && p in At(h, s, steps, k).pairings
    ensures var row := At(h, s, steps, k).pairings[p];
      && (row.claimedAt.Some? <==> exists j :: 0 <= j < k && Claims(h, At(h, s, steps, j), steps[j], p))
      && (row.confirmedAt.Some? <==> exists j :: 0 <= j < k && Confirms(h, At(h, s, steps, j), steps[j], p))
      && (row.consumedAt.Some? <==> exists j :: 0 <= j < k && HandsOut(h, At(h, s, steps, j), steps[j], p))
  {
    hide Claims, Confirms, HandsOut, Next, Enabled, Inv;
    if k > 0 {
      var before, step := At(h, s, steps, k - 1), steps[k - 1];
      RunInv(h, s, steps, k - 1);
      assert Enabled(h, before, step);
      if p in before.pairings {
        MarksHaveCauses(h, s, steps, k - 1, p);
        StepMarks(h, before, step, p);
      } else {
        StepCreates(h, before, step, p);
        NothingBefore(h, s, steps, k - 1, p);
      }
    }
  }

  lemma {:induction false} NothingBefore(h: Hash, s: Store, steps: seq<Step>, k: nat, p: Id)
    requires Inv(h, s) && Possible(h, s, steps) && k <= |steps| && p !in At(h, s, steps, k).pairings
    ensures forall j :: 0 <= j < k ==>
      !Claims(h, At(h, s, steps, j), steps[j], p) && !Confirms(h, At(h, s, steps, j), steps[j], p) && !HandsOut(h, At(h, s, steps, j), steps[j], p)
  {
    hide Claims, Confirms, HandsOut, Next, Enabled, Inv;
    if k > 0 {
      var before, step := At(h, s, steps, k - 1), steps[k - 1];
      RunInv(h, s, steps, k - 1);
      assert Enabled(h, before, step);
      if p in before.pairings {
        StepMarks(h, before, step, p);
      }
      NothingBefore(h, s, steps, k - 1, p);
      StepCreates(h, before, step, p);
    }
  }

  /** A pairing creates at most one device. */
  lemma OneDevicePerPairing(h: Hash, s: Store, steps: seq<Step>, j: nat, k: nat, p: Id)
    requires Inv(h, s) && s.pairings == map[] && Possible(h, s, steps) && j < k < |steps|
    requires Confirms(h, At(h, s, steps, j), steps[j], p)
    ensures !Confirms(h, At(h, s, steps, k), steps[k], p)
  {
    hide Next, Enabled, Inv;
    if Confirms(h, At(h, s, steps, k), steps[k], p) {
      MarksHaveCauses(h, s, steps, k, p);
      assert At(h, s, steps, k).pairings[p].confirmedAt.Some?;
    }
  }

  /** What a hand-out tells: the device it names is the pairing's own, and recognises the token. */
  lemma HandOutIsGenuine(h: Hash, s: Store, step: Step, p: Id)
    requires Inv(h, s) && HandsOut(h, s, step, p)
    ensures var row, reply := s.pairings[p], Answer(h, s, step);
      && p in s.pairings && row.claimedAt.Some? && row.confirmedAt.Some? && row.cancelledAt.None? && row.consumedAt.None?
      && row.device == Some(reply.device) && reply.device in s.devices
      && h.digest(reply.token) == Some(s.devices[reply.device].digest) && s.devices[reply.device].user == row.user
  {
    assert RowOk(h, s.devices, s.pairings[p]);
  }

  /**
   * In every run the credential of a pairing is handed out at most once, and only after a claim and a confirmation,
   * in that order, with no cancellation.
   */
  lemma HandOutOnce(h: Hash, s: Store, steps: seq<Step>, k: nat, p: Id)
    requires Inv(h, s) && s.pairings == map[] && Possible(h, s, steps) && k < |steps| && HandsOut(h, At(h, s, steps, k), steps[k], p)
    ensures forall j :: 0 <= j < |steps| && j != k ==> !HandsOut(h, At(h, s, steps, j), steps[j], p)
    ensures exists i, j :: 0 <= i < j < k && Claims(h, At(h, s, steps, i), steps[i], p) && Confirms(h, At(h, s, steps, j), steps[j], p)
    ensures At(h, s, steps, k).pairings[p].cancelledAt.None?
  {
    hide Next, Enabled, Inv, Claims, Confirms, HandsOut;
    RunInv(h, s, steps, k);
    HandOutIsGenuine(h, At(h, s, steps, k), steps[k], p);
    MarksHaveCauses(h, s, steps, k, p);
    forall j | 0 <= j < |steps| && j != k
      ensures !HandsOut(h, At(h, s, steps, j), steps[j], p)
    {
      if HandsOut(h, At(h, s, steps, j), steps[j], p) && j > k {
        RunInv(h, s, steps, j);
        HandOutIsGenuine(h, At(h, s, steps, j), steps[j], p);
        MarksHaveCauses(h, s, steps, j, p);
      }
    }
    var j :| 0 <= j < k && Confirms(h, At(h, s, steps, j), steps[j], p);
    ConfirmedAfterClaim(h, s, steps, j, p);
  }

  lemma ConfirmedAfterClaim(h: Hash, s: Store, steps: seq<Step>, j: nat, p: Id)
    requires Inv(h, s) && s.pairings == map[] && Possible(h, s, steps) && j < |steps| && Confirms(h, At(h, s, steps, j), steps[j], p)
    ensures exists i :: 0 <= i < j && Claims(h, At(h, s, steps, i), steps[i], p)
  {
    hide Next, Enabled, Inv, Claims;
    MarksHaveCauses(h, s, steps, j, p);
  }

  // ----- The visible status -----

  /** Whatever happens and however time passes, the status of a pairing only moves forward. */
  lemma StatusMovesForward(h: Hash, s: Store, step: Step, p: Id, now: Time, later: Time)
    requires Inv(h, s) && Enabled(h, s, step) && p in s.pairings && now <= later && StepTime(step) == later
    ensures p in Next(h, s, step).pairings && Forward(StatusOf(now, s.pairings[p]), StatusOf(later, Next(h, s, step).pairings[p]))
  {
    StepMarks(h, s, step, p);
    assert RowOk(h, s.devices, s.pairings[p]);
    match Written(h, s, step)
    case None =>
    case Some((q, row)) => WrittenTransition(h, s, step, q, row);
  }

  function StepTime(step: Step): Time { step.now }

  /** The clock of a run does not go back. */
  predicate Clocked(steps: seq<Step>)
  {
    forall j, k :: 0 <= j < k < |steps| ==> StepTime(steps[j]) <= StepTime(steps[k])
  }

  /** From one step of a run to the next. */
  lemma OneStepForward(h: Hash, s: Store, steps: seq<Step>, k: nat, p: Id)
    requires Inv(h, s) && Possible(h, s, steps) && Clocked(steps) && 0 < k < |steps| && p in At(h, s, steps, k - 1).pairings
    ensures p in At(h, s, steps, k).pairings
    ensures Forward(StatusOf(StepTime(steps[k - 1]), At(h, s, steps, k - 1).pairings[p]),
                    StatusOf(StepTime(steps[k]), At(h, s, steps, k).pairings[p]))
  {
    hide Next, Enabled, Inv, Forward, StatusOf, RowOk;
    var before, now, later := At(h, s, steps, k - 1), StepTime(steps[k - 1]), StepTime(steps[k]);
    RunInv(h, s, steps, k - 1);
    assert Enabled(h, before, steps[k - 1]);
    StatusMovesForward(h, before, steps[k - 1], p, now, now);
    RunInv(h, s, steps, k);
    var after := At(h, s, steps, k).pairings[p];
    ConsumedIsConfirmed(h, At(h, s, steps, k), p);
    TimeMovesForward(after, now, later);
    ForwardIsTransitive(StatusOf(now, before.pairings[p]), StatusOf(now, after), StatusOf(later, after));
  }

  lemma {:induction false} RunMovesForward(h: Hash, s: Store, steps: seq<Step>, j: nat, k: nat, p: Id)
    requires Inv(h, s) && Possible(h, s, steps) && Clocked(steps) && j <= k < |steps| && p in At(h, s, steps, j).pairings
    ensures p in At(h, s, steps, k).pairings
    ensures Forward(StatusOf(StepTime(steps[j]), At(h, s, steps, j).pairings[p]), StatusOf(StepTime(steps[k]), At(h, s, steps, k).pairings[p]))
    decreases k
  {
    hide At, Possible, Clocked, Inv, Forward, StatusOf;
    var status := StatusOf(StepTime(steps[j]), At(h, s, steps, j).pairings[p]);
    if j == k {
      SameStatus(status);
    } else {
      RunMovesForward(h, s, steps, j, k - 1, p);
      OneStepForward(h, s, steps, k, p);
      ForwardIsTransitive(status, StatusOf(StepTime(steps[k - 1]), At(h, s, steps, k - 1).pairings[p]),
                          StatusOf(StepTime(steps[k]), At(h, s, steps, k).pairings[p]));
    }
  }

  lemma ConsumedIsConfirmed(h: Hash, s: Store, p: Id)
    requires Inv(h, s) && p in s.pairings
    ensures s.pairings[p].consumedAt.Some? ==> s.pairings[p].confirmedAt.Some?
  {
    assert RowOk(h, s.devices, s.pairings[p]);
  }

  lemma SameStatus(a: Status)
    ensures Forward(a, a)
  {
  }

  lemma TimeMovesForward(row: Invitation, now: Time, later: Time)
    requires now <= later && (row.consumedAt.Some? ==> row.confirmedAt.Some?)
    ensures Forward(StatusOf(now, row), StatusOf(later, row))
  {
  }

  /** What the device is told when it asks for its credential agrees with the status the administrator sees. */
  lemma StatusAgreesWithReply(h: Hash, s: Store, p: Id, now: Time)
    requires Inv(h, s) && p in s.pairings
    ensures var status, reply := StatusOf(now, s.pairings[p]), CollectReply(s.pairings[p], now);
      && (status == Cancelled <==> reply == Refused(Conflict)) && (status == Lapsed <==> reply == Refused(Expired))
      && (status == CredentialConsumed <==> reply == Refused(Consumed)) && (status == Confirmed <==> reply.Credential?)
      && (status in {AwaitingScan, AwaitingConfirmation} <==> reply == Waiting(status))
  {
    assert RowOk(h, s.devices, s.pairings[p]);
  }

  // ----- The store -----

  /** Row `p` becomes `row`, and every other pairing stays as it was. */
  predicate OnlyPairing(before: map<Id, Invitation>, after: map<Id, Invitation>, p: Id, row: Invitation)
  {
    && after.Keys == before.Keys + {p} && after[p] == row
    && forall q :: q in before && q != p ==> after[q] == before[q]
  }

  class Devices {
    const hash: Hash
    var users: set<string>
    var pairings: map<Id, Invitation>
    var devices: map<Id, Device>

    ghost function Current(): Store
      reads this
    {
      Store(users, pairings, devices)
    }

    ghost predicate Valid()
      reads this
    {
      Inv(hash, Current())
    }

    constructor (hash: Hash)
      ensures Valid() && this.hash == hash && pairings == map[] && devices == map[]
    {
      this.hash := hash;
      users, pairings, devices := {}, map[], map[];
    }

    method Find(token: string) returns (r: Option<Id>)
      requires Valid()
      ensures r == Lookup(hash, Current(), token)
      ensures r.None? ==> hash.digest(token).None? || forall p :: p in pairings ==> pairings[p].digest != hash.digest(token).value
      ensures r.Some? ==> r.value in pairings && hash.digest(token) == Some(pairings[r.value].digest)
      ensures forall p :: p in pairings && hash.digest(token) == Some(pairings[p].digest) ==> r == Some(p)
    {
      var d := hash.digest(token);
      if d.None? || !(exists p :: p in pairings && pairings[p].digest == d.value) {
        assert forall p :: !Carries(hash, Current(), p, token);
        return None;
      }
      var p :| p in pairings && pairings[p].digest == d.value;
      assert Carries(hash, Current(), p, token);
      return Some(p);
    }

    method CreatePairing(id: Id, user: string, token: string, now: Time) returns (reply: Reply)
      requires Valid() && Enabled(hash, Current(), Create(id, user, token, now))
      modifies this`pairings
      ensures Valid() && reply == Answer(hash, old(Current()), Create(id, user, token, now))
      ensures Current() == Next(hash, old(Current()), Create(id, user, token, now))
      ensures reply == (if user in users then Created(id) else Refused(NotFound)) && (reply.Refused? ==> pairings == old(pairings))
      ensures reply.Created? ==> OnlyPairing(old(pairings), pairings, id,
        Invitation(user, hash.digest(token).value, now + 600, "", "", None, None, None, None, None, None))
    {
      StepInv(hash, Current(), Create(id, user, token, now));
      if user !in users {
        return Refused(NotFound);
      }
      pairings := pairings[id := Invitation(user, hash.digest(token).value, now + LIFETIME, "", "", None, None, None, None, None, None)];
      return Created(id);
    }

    method ClaimPairing(token: string, input: ClaimInput, now: Time) returns (reply: Reply)
      requires Valid()
      modifies this`pairings
      ensures Valid() && reply == Answer(hash, old(Current()), Claim(token, input, now))
      ensures Current() == Next(hash, old(Current()), Claim(token, input, now))
      ensures reply in {Waiting(AwaitingConfirmation), Refused(NotFound), Refused(InvalidInput), Refused(Conflict), Refused(Expired)}
      ensures reply.Refused? ==> pairings == old(pairings)
      ensures reply == Refused(InvalidInput) <==> hash.digest(token).Some? && !input.wellFormed
      ensures reply == Refused(NotFound) <==>
        || hash.digest(token).None?
        || (input.wellFormed && forall p :: p in old(pairings) ==> old(pairings)[p].digest != hash.digest(token).value)
      ensures forall p :: p in old(pairings) && hash.digest(token) == Some(old(pairings)[p].digest) && input.wellFormed ==>
        var row := old(pairings)[p];
        var free := row.claimedAt.None? && row.confirmedAt.None? && row.cancelledAt.None?;
        && (reply.Waiting? <==> free && now < row.expiresAt) && (reply == Refused(Expired) <==> free && row.expiresAt <= now)
        && (reply.Waiting? ==>
              OnlyPairing(old(pairings), pairings, p, row.(name := input.name, platform := input.platform, claimedAt := Some(now))))
    {
      StepInv(hash, Current(), Claim(token, input, now));
      if hash.digest(token).None? {
        return Refused(NotFound);
      }
      if !input.wellFormed {
        return Refused(InvalidInput);
      }
      var found := Find(token);
      if found.None? {
        return Refused(NotFound);
      }
      var row := pairings[found.value];
      if row.claimedAt.None? && row.confirmedAt.None? && row.cancelledAt.None? && row.expiresAt > now {
        pairings := pairings[found.value := row.(name := input.name, platform := input.platform, claimedAt := Some(now))];
        return Waiting(AwaitingConfirmation);
      }
      return Refused(ClaimError(row, now));
    }

    method ConfirmPairing(user: string, p: Id, device: Id, token: string, now: Time) returns (reply: Reply)
      requires Valid() && Enabled(hash, Current(), Confirm(user, p, device, token, now))
      modifies this`pairings, this`devices
      ensures Valid() && reply == Answer(hash, old(Current()), Confirm(user, p, device, token, now))
      ensures Current() == Next(hash, old(Current()), Confirm(user, p, device, token, now))
      ensures reply in {Accepted(device), Refused(NotFound), Refused(Conflict), Refused(Expired)}
      ensures reply.Refused? ==> pairings == old(pairings) && devices == old(devices)
      ensures reply == Refused(NotFound) <==> p !in old(pairings) || old(pairings)[p].user != user
      ensures p in old(pairings) && old(pairings)[p].user == user ==>
        var row := old(pairings)[p];
        var open := row.confirmedAt.None? && row.cancelledAt.None?;
        && (reply.Accepted? <==> open && row.claimedAt.Some? && now < row.expiresAt)
        && (reply == Refused(Expired) <==> open && row.expiresAt <= now)
        && (reply.Accepted? ==>
              && OnlyPairing(old(pairings), pairings, p,
                   row.(confirmedAt := Some(now), device := Some(device), sealed := Some(Sealed(token))))
              && devices == old(devices)[device := Device(user, row.name, row.platform, hash.digest(token).value)])
    {
      StepInv(hash, Current(), Confirm(user, p, device, token, now));
      if p !in pairings || pairings[p].user != user {
        return Refused(NotFound);
      }
      var row := pairings[p];
      if row.cancelledAt.Some? || row.confirmedAt.Some? {
        return Refused(Conflict);
      }
      if now >= row.expiresAt {
        return Refused(Expired);
      }
      if row.claimedAt.None? {
        return Refused(Conflict);
      }
      devices := devices[device := Device(user, row.name, row.platform, hash.digest(token).value)];
      pairings := pairings[p := row.(confirmedAt := Some(now), device := Some(device), sealed := Some(Sealed(token)))];
      return Accepted(device);
    }

    method PairingResult(token: string, now: Time) returns (reply: Reply)
      requires Valid()
      modifies this`pairings
      ensures Valid() && reply == Answer(hash, old(Current()), Collect(token, now))
      ensures Current() == Next(hash, old(Current()), Collect(token, now))
      ensures !reply.Credential? ==> pairings == old(pairings)
      ensures reply == Refused(NotFound) <==>
        hash.digest(token).None? || forall p :: p in old(pairings) ==> old(pairings)[p].digest != hash.digest(token).value
      ensures forall p :: p in old(pairings) && hash.digest(token) == Some(old(pairings)[p].digest) ==>
        var row := old(pairings)[p];
        && (reply.Credential? <==> row.cancelledAt.None? && row.confirmedAt.Some? && row.consumedAt.None?)
        && (reply == Refused(Consumed) <==> row.cancelledAt.None? && row.consumedAt.Some?)
        && (reply == Refused(Conflict) <==> row.cancelledAt.Some?)
        && (reply == Refused(Expired) <==> row.cancelledAt.None? && row.confirmedAt.None? && row.expiresAt <= now)
        && (reply.Waiting? ==> reply.status == if row.claimedAt.Some? then AwaitingConfirmation else AwaitingScan)
        && (reply.Credential? ==>
              && row.device == Some(reply.device) && row.sealed == Some(Sealed(reply.token))
              && OnlyPairing(old(pairings), pairings, p, row.(consumedAt := Some(now), sealed := None)))
    {
      hide Inv;
      StepInv(hash, Current(), Collect(token, now));
      var found := Find(token);
      if found.None? {
        return Refused(NotFound);
      }
      var row := pairings[found.value];
      RowIsOk(hash, Current(), found.value);
      if row.cancelledAt.Some? {
        return Refused(Conflict);
      }
      if row.confirmedAt.None? && now >= row.expiresAt {
        return Refused(Expired);
      }
      if row.consumedAt.Some? || (row.confirmedAt.Some? && row.sealed.None?) {
        return Refused(Consumed);
      }
      if row.confirmedAt.None? {
        return Waiting(if row.claimedAt.Some? then AwaitingConfirmation else AwaitingScan);
      }
      pairings := pairings[found.value := row.(consumedAt := Some(now), sealed := None)];
      return Credential(row.device.value, row.sealed.value.secret);
    }

    method CancelPairing(user: string, p: Id, now: Time) returns (reply: Reply)
      requires Valid()
      modifies this`pairings
      ensures Valid() && reply == Answer(hash, old(Current()), Cancel(user, p, now))
      ensures Current() == Next(hash, old(Current()), Cancel(user, p, now))
      ensures reply in {Done, Refused(NotFound)} && (reply.Refused? ==> pairings == old(pairings))
      ensures reply == Done <==>
        && p in old(pairings) && old(pairings)[p].user == user
        && old(pairings)[p].confirmedAt.None? && old(pairings)[p].cancelledAt.None?
      ensures reply == Done ==> OnlyPairing(old(pairings), pairings, p, old(pairings)[p].(cancelledAt := Some(now)))
    {
      StepInv(hash, Current(), Cancel(user, p, now));
      if p in pairings && pairings[p].user == user && pairings[p].confirmedAt.None? && pairings[p].cancelledAt.None? {
        pairings := pairings[p := pairings[p].(cancelledAt := Some(now))];
        return Done;
      }
      return Refused(NotFound);
    }
  }
}
