/** How the terms of a license and the leases of its devices follow from the calls of a run. */
module LicensingHistory {
  import opened Prelude
  import opened Text
  import opened LicensingModel
  import opened LicensingInvariant
  import opened LicensingRuns
  import opened LicensingEffects
  import opened LicensingGuarantees

  // ----- the effect of a call -----

  /** What a call that changes the records does to them. */
  ghost predicate HasEffect(s: Records, e: Event, upper: string -> string, s': Records, reply: Reply) {
    match e
    case Create(request, now, id, _) =>
      id.Some? && reply.CodeReply? && Created(s, s', request, now, id.value, reply.issued)
    case Update(id, change, now) => Updated(s, s', TrimSpace(id), change, now)
    case Issue(id, now, _) =>
      reply.CodeReply? && CodeAdded(s, s', TrimSpace(id), now, reply.issued) && s' == s.(codes := s'.codes)
    case Activate(request, now, token, _, newId) =>
      && reply.GrantReply? && token.Some?
      && exists c :: Redeemable(s, c, upper(TrimSpace(request.code)), now)
           && ActivatedBy(s, s', c, request, now, token.value, newId, reply.grant)
    case Heartbeat(id, now, _) => reply.GrantReply? && RenewedAt(s, s', TrimSpace(id), now, reply.grant)
    case Revoke(id, now) => RevokedAt(s, s', TrimSpace(id), now)
    case Release(id, now) => ReleasedAt(s, s', TrimSpace(id), now)
  }

  lemma ActivationHasEffect(s: Records, e: Event, upper: string -> string)
    requires StoreOk(s) && FreshIds(s, e) && e.Activate? && PlanOf(s, e, upper).Change?
    ensures HasEffect(s, e, upper, PlanOf(s, e, upper).next, PlanOf(s, e, upper).response)
  {
    var Activate(request, now, token, sealing, newId) := e;
    hide ValidRecords, IdentityOk, TokensOpen, LimitsOk, LeasesOk, RevocationOk, DevicesPaid, ReleasedOk, PlanActivate,
         ActivatedBy, Redeemable;
    var c := ActivateEffect(s, request, upper, now, token, sealing, newId);
  }

  lemma GenerationHasEffect(s: Records, e: Event, upper: string -> string)
    requires FreshIds(s, e) && (e.Create? || e.Issue?) && PlanOf(s, e, upper).Change?
    ensures HasEffect(s, e, upper, PlanOf(s, e, upper).next, PlanOf(s, e, upper).response)
  {
    hide PlanCreate, PlanIssue, FreshCodes, Created, CodeAdded, TrimSpace;
    match e
    case Create(request, now, id, draws) => CreateEffect(s, request, now, id, draws);
    case Issue(id, now, draws) => IssueEffect(s, id, now, draws);
  }

  lemma RewriteHasEffect(s: Records, e: Event, upper: string -> string)
    requires ValidRecords(s) && IsRewrite(e) && PlanOf(s, e, upper).Change?
    ensures HasEffect(s, e, upper, PlanOf(s, e, upper).next, PlanOf(s, e, upper).response)
  {
    hide ValidRecords, PlanUpdate, PlanHeartbeat, PlanRevoke, PlanRelease, Updated, RenewedAt, RevokedAt, ReleasedAt,
         TrimSpace, CanUpdate, CanRenew;
    match e
    case Update(id, change, now) => UpdateEffect(s, id, change, now);
    case Heartbeat(id, now, bearer) => HeartbeatEffect(s, id, bearer, now);
    case Revoke(id, now) => RevokeEffect(s, id, now);
    case Release(id, now) => ReleaseEffect(s, id, now);
  }

  lemma EventHasEffect(s: Records, e: Event, upper: string -> string)
    requires StoreOk(s) && FreshIds(s, e) && PlanOf(s, e, upper).Change?
    ensures HasEffect(s, e, upper, PlanOf(s, e, upper).next, PlanOf(s, e, upper).response)
  {
    ValidOf(s);
    hide StoreOk, ValidRecords, PlanOf, FreshIds, HasEffect;
    if e.Activate? {
      ActivationHasEffect(s, e, upper);
    } else if IsRewrite(e) {
      RewriteHasEffect(s, e, upper);
    } else {
      GenerationHasEffect(s, e, upper);
    }
  }

  // ----- terms -----

  datatype Terms = Terms(deviceLimit: int, expiresAt: Option<Time>)

  function TermsOf(s: Records, l: string): Option<Terms> {
    if l in s.licenses then Some(Terms(s.licenses[l].deviceLimit, s.licenses[l].expiresAt)) else None
  }

  /** The terms that a successful creation or update gives license `l`. */
  ghost function TermsSet(s: Records, c: Call, upper: string -> string, l: string): Option<Terms> {
    if !Succeeds(s, c, upper) then None
    else match c.event
      case Create(request, _, id, _) =>
        if id == Some(l) then Some(Terms(request.deviceLimit, request.expiresAt)) else None
      case Update(id, change, _) =>
        if TrimSpace(id) == l then Some(Terms(change.deviceLimit, change.expiresAt)) else None
      case _ => None
  }

  lemma EffectOnTerms(s: Records, e: Event, upper: string -> string, s': Records, reply: Reply, l: string)
    requires HasEffect(s, e, upper, s', reply)
    ensures TermsOf(s', l) ==
            match e
            case Create(request, _, id, _) =>
              if id == Some(l) then Some(Terms(request.deviceLimit, request.expiresAt)) else TermsOf(s, l)
            case Update(id, change, _) =>
              if TrimSpace(id) == l then Some(Terms(change.deviceLimit, change.expiresAt)) else TermsOf(s, l)
            case _ => TermsOf(s, l)
  {
    hide TrimSpace, CodeAdded, Redeemable, LeasedAt, IsDevice, ActiveUnder;
  }

  lemma TermsStep(s: Records, c: Call, upper: string -> string, l: string)
    requires StoreOk(s) && FreshIds(s, c.event)
    ensures TermsOf(After(s, c, upper), l)
            == if TermsSet(s, c, upper, l).Some? then TermsSet(s, c, upper, l) else TermsOf(s, l)
  {
    hide StoreOk, PlanOf, FreshIds, HasEffect, TrimSpace, TermsOf;
    var p := PlanOf(s, c.event, upper);
    if p.Change? {
      EventHasEffect(s, c.event, upper);
      EffectOnTerms(s, c.event, upper, p.next, p.response, l);
    } else if p.Answer? {
      AnswerShape(s, c, upper);
    }
  }

  /** The terms given by the latest successful update, or else by the creation of the license. */
  ghost function LastTerms(states: seq<Records>, calls: seq<Call>, upper: string -> string, i: nat,
                           l: string): Option<Terms>
    requires i < |states| <= |calls| + 1
  {
    if i == 0 then None
    else if TermsSet(states[i - 1], calls[i - 1], upper, l).Some? then
      TermsSet(states[i - 1], calls[i - 1], upper, l)
    else LastTerms(states, calls, upper, i - 1, l)
  }

  /** Limit and expiry of a license are those of its latest successful update, or else of its creation. */
  lemma {:induction false} TermsFollowHistory(states: seq<Records>, calls: seq<Call>, upper: string -> string, i: nat,
                                              l: string)
    requires StoreRun(states, calls, upper) && i < |states|
    ensures TermsOf(states[i], l) == LastTerms(states, calls, upper, i, l)
  {
    hide StoreOk, PlanOf, FreshIds, After, TermsSet;
    if i > 0 {
      TermsFollowHistory(states, calls, upper, i - 1, l);
      RunKeepsStoreOk(states, calls, upper, i - 1);
      TermsStep(states[i - 1], calls[i - 1], upper, l);
    }
  }

  // ----- leases -----

  /** The call gives device `d` a new lease: its activation, its heartbeat or an update of its license. */
  ghost predicate Leases(s: Records, c: Call, upper: string -> string, d: string) {
    && Succeeds(s, c, upper)
    && (|| ActivatesDevice(s, c, upper, d)
        || (c.event.Heartbeat? && TrimSpace(c.event.id) == d)
        || (c.event.Update? && d in s.devices && s.devices[d].licenseId == TrimSpace(c.event.id)))
  }

  predicate IsActive(s: Records, d: string) {
    d in s.devices && s.devices[d].status == DeviceActive && s.devices[d].licenseId in s.licenses
  }

  /** The device's lease was given at `t`, under the expiry its license has now. */
  predicate LeaseFrom(s: Records, d: string, t: Time)
    requires IsActive(s, d)
  {
    LeasedAt(s.devices[d].leaseExpiresAt, t, s.licenses[s.devices[d].licenseId].expiresAt)
  }

  lemma EffectOnLease(s: Records, e: Event, upper: string -> string, s': Records, reply: Reply, d: string)
    requires HasEffect(s, e, upper, s', reply) && IsActive(s', d)
    requires forall k <- s.devices :: s.devices[k].licenseId in s.licenses
    requires e.Create? && e.licenseId.Some? ==> e.licenseId.value !in s.licenses
    ensures if || (e.Activate? && reply.GrantReply? && reply.grant.deviceId == d)
               || (e.Heartbeat? && TrimSpace(e.id) == d)
               || (e.Update? && d in s.devices && s.devices[d].licenseId == TrimSpace(e.id))
            then LeaseFrom(s', d, e.now)
            else
              && IsActive(s, d) && s'.devices[d].leaseExpiresAt == s.devices[d].leaseExpiresAt
              && s'.devices[d].licenseId == s.devices[d].licenseId
              && s'.licenses[s.devices[d].licenseId].expiresAt == s.licenses[s.devices[d].licenseId].expiresAt
  {
    hide TrimSpace, CodeAdded, Redeemable, LeasedAt;
  }

  lemma LeaseStep(s: Records, c: Call, upper: string -> string, d: string)
    requires StoreOk(s) && FreshIds(s, c.event) && IsActive(After(s, c, upper), d)
    ensures if Leases(s, c, upper, d) then LeaseFrom(After(s, c, upper), d, c.event.now)
            else IsActive(s, d) && forall t :: LeaseFrom(s, d, t) ==> LeaseFrom(After(s, c, upper), d, t)
  {
    var p := PlanOf(s, c.event, upper);
    hide StoreOk, FreshIds, PlanOf, HasEffect, TrimSpace, LeasedAt, IsActive;
    if p.Change? && c.stored {
      EventHasEffect(s, c.event, upper);
      LicensesKnown(s);
      FreshLicense(s, c.event);
      EffectOnLease(s, c.event, upper, p.next, p.response, d);
      ReplyOfActivation(s, c.event, upper, p.next, p.response);
    } else if p.Answer? {
      AnswerShape(s, c, upper);
    }
  }

  lemma LicensesKnown(s: Records)
    requires StoreOk(s)
    ensures forall d <- s.devices :: s.devices[d].licenseId in s.licenses
  {
    hide StoreOk;
    forall d <- s.devices ensures s.devices[d].licenseId in s.licenses {
      DeviceFacts(s, d);
    }
  }

  lemma FreshLicense(s: Records, e: Event)
    requires FreshIds(s, e)
    ensures e.Create? && e.licenseId.Some? ==> e.licenseId.value !in s.licenses
  {
    hide FreshCodes;
  }

  lemma ReplyOfActivation(s: Records, e: Event, upper: string -> string, s': Records, reply: Reply)
    requires HasEffect(s, e, upper, s', reply)
    ensures e.Activate? ==> reply.GrantReply?
  {
    hide ActivatedBy, Redeemable;
  }

  /** When device `d` was last given a lease. */
  ghost function LastLease(states: seq<Records>, calls: seq<Call>, upper: string -> string, i: nat,
                           d: string): Option<Time>
    requires i < |states| <= |calls| + 1
  {
    if i == 0 then None
    else if Leases(states[i - 1], calls[i - 1], upper, d) then Some(calls[i - 1].event.now)
    else LastLease(states, calls, upper, i - 1, d)
  }

  /** The lease of an active device ends 24 hours after the latest of its activation, its heartbeats and the
      updates of its license, or when its license expires as of now, whichever is earlier. */
  lemma {:induction false} LeasesFollowHistory(states: seq<Records>, calls: seq<Call>, upper: string -> string, i: nat,
                                               d: string)
    requires StoreRun(states, calls, upper) && i < |states| && IsActive(states[i], d)
    ensures LastLease(states, calls, upper, i, d).Some?
    ensures LeaseFrom(states[i], d, LastLease(states, calls, upper, i, d).value)
  {
    hide StoreOk, PlanOf, FreshIds, After, Leases, LeaseFrom;
    if i > 0 {
      RunKeepsStoreOk(states, calls, upper, i - 1);
      LeaseStep(states[i - 1], calls[i - 1], upper, d);
      if !Leases(states[i - 1], calls[i - 1], upper, d) {
        LeasesFollowHistory(states, calls, upper, i - 1, d);
      }
    }
  }

  // ----- authorization -----

  /** Authorization by what was called alone: a device is let in if and only if the token is that of its latest
      activation and it was not released since, its license was never revoked and has not expired under its
      latest terms, and less than 24 hours have passed since the device was last given a lease. */
  lemma AuthorizedByHistory(states: seq<Records>, calls: seq<Call>, upper: string -> string, i: nat,
                            deviceId: string, token: string, now: Time)
    requires StoreRun(states, calls, upper) && i < |states|
    ensures var d := TrimSpace(deviceId);
      Authorize(states[i], deviceId, Some(token), now).Ok? <==>
        && d != "" && LastToken(states, calls, upper, i, d) == Some(token) && d in states[i].devices
        && var l := states[i].devices[d].licenseId;
        && !WasRevoked(states, calls, upper, i, l)
        && var terms, lease := LastTerms(states, calls, upper, i, l), LastLease(states, calls, upper, i, d);
        && terms.Some? && (terms.value.expiresAt.Some? ==> now < terms.value.expiresAt.value)
        && lease.Some? && now < lease.value + 86_400_000_000_000
  {
    var s, d := states[i], TrimSpace(deviceId);
    AuthorizedIff(states, calls, upper, i, deviceId, token, now);
    TokensFollowHistory(states, calls, upper, i, d);
    RunKeepsStoreOk(states, calls, upper, i);
    hide PlanOf, FreshIds, After, LastToken, WasRevoked, TrimSpace, LastTerms, LastLease, Authorize;
    if d in s.devices && LastToken(states, calls, upper, i, d) == Some(token) {
      var l := s.devices[d].licenseId;
      DeviceFacts(s, d);
      RevocationsFollowHistory(states, calls, upper, i, l);
      TermsFollowHistory(states, calls, upper, i, l);
      hide StoreOk;
      if !WasRevoked(states, calls, upper, i, l) {
        LeasesFollowHistory(states, calls, upper, i, d);
      }
    }
  }
}
