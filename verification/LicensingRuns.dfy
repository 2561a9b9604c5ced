/** Runs of the licensing store: any sequence of operations, each of which may fail to be stored. */
module LicensingRuns {
  import opened Prelude
  import opened Text
  import opened LicensingModel
  import opened LicensingInvariant

  /** An operation with everything it depends on: its arguments, the clock and what the random source gives. */
  datatype Event =
    | Create(request: CreateRequest, now: Time, licenseId: Option<string>, draws: Draws)
    | Update(id: string, change: UpdateRequest, now: Time)
    | Issue(id: string, now: Time, draws: Draws)
    | Activate(activation: ActivateRequest, now: Time, token: Option<string>, sealing: bool, newId: Option<string>)
    | Heartbeat(id: string, now: Time, bearer: Option<string>)
    | Revoke(id: string, now: Time)
    | Release(id: string, now: Time)

  datatype Reply =
    | CodeReply(issued: Issued)
    | LicenseReply(id: string)
    | GrantReply(grant: Grant)
    | DeviceReply(id: string)

  function Wrap<R>(p: Plan<R>, f: R -> Reply): Plan<Reply> {
    match p
    case Refuse(e) => Refuse(e)
    case Answer(r) => Answer(f(r))
    case Change(next, r) => Change(next, f(r))
  }

  /** What an operation intends in state `s`; `upper` is Unicode upper-casing. */
  ghost function PlanOf(s: Records, e: Event, upper: string -> string): Plan<Reply> {
    match e
    case Create(request, now, id, draws) => Wrap(PlanCreate(s, request, now, id, draws), r => CodeReply(r))
    case Update(id, change, now) => Wrap(PlanUpdate(s, id, change, now), r => LicenseReply(r))
    case Issue(id, now, draws) => Wrap(PlanIssue(s, id, now, draws), r => CodeReply(r))
    case Activate(activation, now, token, sealing, newId) =>
      Wrap(PlanActivate(s, activation, upper, now, token, sealing, newId), r => GrantReply(r))
    case Heartbeat(id, now, bearer) => Wrap(PlanHeartbeat(s, id, bearer, now), r => GrantReply(r))
    case Revoke(id, now) => Wrap(PlanRevoke(s, id, now), r => LicenseReply(r))
    case Release(id, now) => Wrap(PlanRelease(s, id, now), r => DeviceReply(r))
  }

  /** Generated ids are unused. */
  ghost predicate FreshIds(s: Records, e: Event) {
    match e
    case Create(_, _, id, draws) => (id.Some? ==> id.value !in s.licenses) && FreshCodes(s, draws)
    case Issue(_, _, draws) => FreshCodes(s, draws)
    case Activate(_, _, _, _, newId) => newId.Some? ==> newId.value !in s.devices
    case _ => true
  }

  /** An operation and whether the commit, if there is one, succeeds. */
  datatype Call = Call(event: Event, stored: bool)

  ghost predicate Succeeds(s: Records, c: Call, upper: string -> string) {
    var p := PlanOf(s, c.event, upper);
    p.Answer? || (p.Change? && c.stored)
  }

  ghost function After(s: Records, c: Call, upper: string -> string): Records {
    var p := PlanOf(s, c.event, upper);
    if p.Change? && c.stored then p.next else s
  }

  ghost predicate StoreRun(states: seq<Records>, calls: seq<Call>, upper: string -> string) {
    && |states| == |calls| + 1
    && states[0] == EMPTY
    && forall i :: 0 <= i < |calls| ==>
         FreshIds(states[i], calls[i].event) && states[i + 1] == After(states[i], calls[i], upper)
  }

  // ----- the invariant -----

  /** An activation that is not refused has found the only code and the only device it can mean. */
  lemma ActivationFinds(s: Records, r0: ActivateRequest, upper: string -> string, now: Time,
                        token: Option<string>, sealing: bool, newId: Option<string>)
    returns (code: string, known: Option<string>, r: ActivateRequest, id: string)
    requires ValidRecords(s) && (newId.Some? ==> newId.value !in s.devices)
    requires PlanActivate(s, r0, upper, now, token, sealing, newId).Change?
    ensures r == Normalize(r0, upper) && token.Some?
    ensures Activates(s, code, known, r, id) && s.codes[code].digest == Mac("code", r.code)
    ensures Usable(s.licenses[s.codes[code].licenseId], now).None?
    ensures var p := PlanActivate(s, r0, upper, now, token, sealing, newId);
      && p.next == ActivatedStore(s, code, known, r, id, token.value, now)
      && id in p.next.devices
      && p.response == MakeGrant(p.next.devices[id], token.value, p.next.licenses[s.codes[code].licenseId], now)
  {
    hide Conflicts, ActiveDevices, ByteLength, TrimSpace, DigestsUnique;
    r := Normalize(r0, upper);
    code := CodeWith(s.codes, Mac("code", r.code)).value;
    var l := s.codes[code].licenseId;
    known := DeviceWith(s.devices, l, r.installationId, r.publicKey);
    id := if known.Some? then known.value else newId.value;
  }

  lemma ValidOf(s: Records)
    requires StoreOk(s)
    ensures ValidRecords(s)
  {
  }

  lemma PlanUpdateKeeps(s: Records, id: string, change: UpdateRequest, now: Time)
    requires StoreOk(s) && PlanUpdate(s, id, change, now).Change?
    ensures StoreOk(PlanUpdate(s, id, change, now).next)
  {
    hide StoreOk, UpdateIn, TrimSpace, ActiveDevices;
    UpdateKeeps(s, TrimSpace(id), change, now);
  }

  lemma PlanIssueKeeps(s: Records, id: string, now: Time, draws: Draws)
    requires StoreOk(s) && FreshCodes(s, draws) && PlanIssue(s, id, now, draws).Change?
    ensures StoreOk(PlanIssue(s, id, now, draws).next)
  {
    hide StoreOk, IssueCodeIn, TrimSpace, FreshCodes;
    IssueKeeps(s, TrimSpace(id), now, draws);
  }

  lemma PlanActivateKeeps(s: Records, r0: ActivateRequest, upper: string -> string, now: Time,
                          token: Option<string>, sealing: bool, newId: Option<string>)
    requires StoreOk(s) && (newId.Some? ==> newId.value !in s.devices)
    requires PlanActivate(s, r0, upper, now, token, sealing, newId).Change?
    ensures StoreOk(PlanActivate(s, r0, upper, now, token, sealing, newId).next)
  {
    ValidOf(s);
    hide StoreOk, ValidRecords, PlanActivate, ActivatedStore, Activates;
    var code, known, r, id := ActivationFinds(s, r0, upper, now, token, sealing, newId);
    ActivateKeeps(s, code, known, r, id, token.value, now);
  }

  lemma PlanHeartbeatKeeps(s: Records, id: string, bearer: Option<string>, now: Time)
    requires StoreOk(s) && PlanHeartbeat(s, id, bearer, now).Change?
    ensures StoreOk(PlanHeartbeat(s, id, bearer, now).next)
  {
    hide StoreOk, HeartbeatIn, TrimSpace;
    HeartbeatKeeps(s, TrimSpace(id), now);
  }

  lemma PlanRevokeKeeps(s: Records, id: string, now: Time)
    requires StoreOk(s) && PlanRevoke(s, id, now).Change?
    ensures StoreOk(PlanRevoke(s, id, now).next)
  {
    hide StoreOk, RevokeIn, TrimSpace;
    RevokeKeeps(s, TrimSpace(id), now);
  }

  lemma PlanReleaseKeeps(s: Records, id: string, now: Time)
    requires StoreOk(s) && PlanRelease(s, id, now).Change?
    ensures StoreOk(PlanRelease(s, id, now).next)
  {
    hide StoreOk, ReleaseIn, TrimSpace;
    ReleaseKeeps(s, TrimSpace(id), now);
  }

  lemma PlanKeeps(s: Records, e: Event, upper: string -> string)
    requires StoreOk(s) && FreshIds(s, e) && PlanOf(s, e, upper).Change?
    ensures StoreOk(PlanOf(s, e, upper).next)
  {
    hide StoreOk, PlanCreate, PlanUpdate, PlanIssue, PlanActivate, PlanHeartbeat, PlanRevoke, PlanRelease, FreshCodes;
    match e
    case Create(request, now, id, draws) => CreateKeeps(s, request, now, id, draws);
    case Update(id, change, now) => PlanUpdateKeeps(s, id, change, now);
    case Issue(id, now, draws) => PlanIssueKeeps(s, id, now, draws);
    case Activate(activation, now, token, sealing, newId) =>
      PlanActivateKeeps(s, activation, upper, now, token, sealing, newId);
    case Heartbeat(id, now, bearer) => PlanHeartbeatKeeps(s, id, bearer, now);
    case Revoke(id, now) => PlanRevokeKeeps(s, id, now);
    case Release(id, now) => PlanReleaseKeeps(s, id, now);
  }

  /** Every state of every run passes the check made on loading and all that the check does not cover. */
  lemma {:induction false} RunKeepsStoreOk(states: seq<Records>, calls: seq<Call>, upper: string -> string, i: nat)
    requires StoreRun(states, calls, upper) && i < |states|
    ensures StoreOk(states[i])
  {
    hide StoreOk, PlanOf, FreshIds;
    if i == 0 {
      EmptyStoreOk();
    } else {
      RunKeepsStoreOk(states, calls, upper, i - 1);
      if PlanOf(states[i - 1], calls[i - 1].event, upper).Change? {
        PlanKeeps(states[i - 1], calls[i - 1].event, upper);
      }
    }
  }
}
