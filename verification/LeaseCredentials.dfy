/** Server and client together: what the client was given works. The credential of an activation is accepted
    until something takes it away, and the credential a client holds is that of one activation. */
module LeaseCredentials {
  import opened Prelude
  import opened Text
  import opened LicensingModel
  import opened LicensingInvariant
  import opened LicensingRuns
  import opened LicensingGuarantees
  import opened LicensingEffects
  import opened LicensingHistory
  import opened LicenseClient
  import opened LeaseProtocol

  /** The server stands by a grant: the device is active with its token, the license is in force on the same
      terms, and the lease has not been shortened. */
  ghost predicate Honors(s: Records, g: Grant) {
    && IsActive(s, g.deviceId)
    && var d := s.devices[g.deviceId];
    && d.tokenDigest == Mac("token", g.token) && d.licenseId == g.licenseId
    && s.licenses[g.licenseId].status == Valid && s.licenses[g.licenseId].expiresAt == g.expiresAt
    && g.leaseExpiresAt <= d.leaseExpiresAt
  }

  /** What takes a grant away or changes its terms: another activation of the device, its release, the revocation
      of the license or an update of it. */
  ghost predicate Supersedes(s: Records, c: Call, upper: string -> string, g: Grant) {
    || ActivatesDevice(s, c, upper, g.deviceId)
    || ReleasesDevice(s, c, upper, g.deviceId)
    || RevokesLicense(s, c, upper, g.licenseId)
    || (c.event.Update? && TrimSpace(c.event.id) == g.licenseId && Succeeds(s, c, upper))
  }

  /** The same of an event whose effect is known. */
  predicate Affects(e: Event, reply: Reply, g: Grant) {
    || (e.Activate? && reply.GrantReply? && reply.grant.deviceId == g.deviceId)
    || (e.Release? && TrimSpace(e.id) == g.deviceId)
    || (e.Revoke? && TrimSpace(e.id) == g.licenseId)
    || (e.Update? && TrimSpace(e.id) == g.licenseId)
  }

  lemma EffectHonors(s: Records, e: Event, upper: string -> string, s': Records, reply: Reply, g: Grant, at: Time)
    requires HasEffect(s, e, upper, s', reply) && Honors(s, g) && !Affects(e, reply, g)
    requires e.Create? && e.licenseId.Some? ==> e.licenseId.value !in s.licenses
    requires LeasedAt(g.leaseExpiresAt, at, g.expiresAt) && at <= e.now
    ensures Honors(s', g)
  {
    hide TrimSpace, CodeAdded, Redeemable;
  }

  lemma HonorsStep(s: Records, c: Call, upper: string -> string, g: Grant, at: Time)
    requires StoreOk(s) && FreshIds(s, c.event) && Honors(s, g) && !Supersedes(s, c, upper, g)
    requires LeasedAt(g.leaseExpiresAt, at, g.expiresAt) && at <= c.event.now
    ensures Honors(After(s, c, upper), g)
  {
    var p := PlanOf(s, c.event, upper);
    hide StoreOk, FreshIds, PlanOf, HasEffect, TrimSpace, LeasedAt, Honors;
    if p.Change? && c.stored {
      EventHasEffect(s, c.event, upper);
      FreshLicense(s, c.event);
      ReplyOfActivation(s, c.event, upper, p.next, p.response);
      EffectHonors(s, c.event, upper, p.next, p.response, g, at);
    }
  }

  lemma EffectGrants(s: Records, e: Event, upper: string -> string, s': Records, g: Grant)
    requires HasEffect(s, e, upper, s', GrantReply(g)) && e.Activate?
    ensures Honors(s', g) && LeasedAt(g.leaseExpiresAt, e.now, g.expiresAt) && g.status == Valid && !g.expired
  {
    hide TrimSpace, LeasedAt;
  }

  /** An activation is honored as soon as it is granted. */
  lemma GrantIsHonored(s: Records, c: Call, upper: string -> string)
    requires StoreOk(s) && FreshIds(s, c.event) && c.event.Activate? && GrantOf(s, c, upper).Some?
    ensures var g := GrantOf(s, c, upper).value;
      && Honors(After(s, c, upper), g) && LeasedAt(g.leaseExpiresAt, c.event.now, g.expiresAt)
      && g.status == Valid && !g.expired
  {
    hide StoreOk, FreshIds, PlanOf, HasEffect, LeasedAt, Honors;
    EventHasEffect(s, c.event, upper);
    EffectGrants(s, c.event, upper, After(s, c, upper), GrantOf(s, c, upper).value);
  }

  // ----- runs -----

  /** Step `k` is a call of the server that grants an activation. */
  ghost predicate Grants(worlds: seq<World>, steps: seq<Step>, upper: string -> string, k: nat, g: Grant)
    requires |worlds| == |steps| + 1 && k < |steps|
  {
    && steps[k].Serve? && steps[k].call.event.Activate?
    && GrantOf(worlds[k].server, steps[k].call, upper) == Some(g)
  }

  /** No call between steps `k` and `i` supersedes the grant. */
  ghost predicate Unsuperseded(worlds: seq<World>, steps: seq<Step>, upper: string -> string, k: nat, i: nat, g: Grant)
    requires |worlds| == |steps| + 1 && i <= |steps|
  {
    forall j :: k < j < i && steps[j].Serve? ==> !Supersedes(worlds[j].server, steps[j].call, upper, g)
  }

  lemma {:induction false} TimeOrder(worlds: seq<World>, steps: seq<Step>, upper: string -> string, defaultUrl: string,
                                     i: nat, j: nat)
    requires ProtocolRun(worlds, steps, upper, defaultUrl) && i <= j < |worlds|
    ensures worlds[i].now <= worlds[j].now
    decreases j
  {
    hide Next;
    if i < j {
      TimeOrder(worlds, steps, upper, defaultUrl, i, j - 1);
      TimeForward(worlds[j - 1], steps[j - 1], upper, defaultUrl, worlds[j]);
    }
  }

  lemma ServeAt(w: World, call: Call, upper: string -> string, defaultUrl: string, w': World)
    requires Next(w, Serve(call), upper, defaultUrl, w')
    ensures call.event.now == w.now && FreshIds(w.server, call.event) && w'.server == After(w.server, call, upper)
  {
    hide FreshIds, After, GrantOf;
  }

  lemma StoreOkAt(worlds: seq<World>, steps: seq<Step>, upper: string -> string, defaultUrl: string, i: nat)
    requires ProtocolRun(worlds, steps, upper, defaultUrl) && i < |worlds|
    ensures StoreOk(worlds[i].server)
  {
    RunKeepsWorldOk(worlds, steps, upper, defaultUrl, i);
    hide StoreOk, SentOk, Backed, ProtocolRun;
  }

  /** An activation that nothing has superseded is still honored. */
  lemma {:induction false} HonoredSince(worlds: seq<World>, steps: seq<Step>, upper: string -> string,
                                        defaultUrl: string, k: nat, i: nat, g: Grant)
    requires ProtocolRun(worlds, steps, upper, defaultUrl) && k < i < |worlds|
    requires Grants(worlds, steps, upper, k, g) && Unsuperseded(worlds, steps, upper, k, i, g)
    ensures Honors(worlds[i].server, g) && LeasedAt(g.leaseExpiresAt, worlds[k].now, g.expiresAt)
    ensures g.status == Valid && !g.expired
    decreases i
  {
    hide StoreOk, Next, After, GrantOf, Honors, LeasedAt, Supersedes, FreshIds;
    var w, step := worlds[i - 1], steps[i - 1];
    assert Next(w, step, upper, defaultUrl, worlds[i]);
    StoreOkAt(worlds, steps, upper, defaultUrl, i - 1);
    if k == i - 1 {
      ServeAt(w, step.call, upper, defaultUrl, worlds[i]);
      GrantIsHonored(w.server, step.call, upper);
    } else {
      HonoredSince(worlds, steps, upper, defaultUrl, k, i - 1, g);
      if step.Serve? {
        ServeAt(w, step.call, upper, defaultUrl, worlds[i]);
        TimeOrder(worlds, steps, upper, defaultUrl, k, i - 1);
        HonorsStep(w.server, step.call, upper, g, worlds[k].now);
      } else {
        ServerUntouched(w, step, upper, defaultUrl, worlds[i]);
      }
    }
  }

  lemma HonoredIsAuthorized(s: Records, g: Grant, at: Time, now: Time)
    requires Honors(s, g) && LeasedAt(g.leaseExpiresAt, at, g.expiresAt) && now < g.leaseExpiresAt
    requires TrimSpace(g.deviceId) == g.deviceId != ""
    ensures Authorize(s, g.deviceId, Some(g.token), now).Ok?
  {
    hide TrimSpace;
  }

  /** The credential of an activation works: until it is superseded, the server accepts device and token for as
      long as the lease in the reply runs. */
  lemma CredentialWorks(worlds: seq<World>, steps: seq<Step>, upper: string -> string, defaultUrl: string,
                        k: nat, i: nat, g: Grant)
    requires ProtocolRun(worlds, steps, upper, defaultUrl) && k < i < |worlds|
    requires Grants(worlds, steps, upper, k, g) && Unsuperseded(worlds, steps, upper, k, i, g)
    requires TrimSpace(g.deviceId) == g.deviceId != "" && worlds[i].now < g.leaseExpiresAt
    ensures Authorize(worlds[i].server, g.deviceId, Some(g.token), worlds[i].now).Ok?
  {
    hide ProtocolRun, Grants, Unsuperseded, Honors, TrimSpace, Authorize, LeasedAt;
    HonoredSince(worlds, steps, upper, defaultUrl, k, i, g);
    HonoredIsAuthorized(worlds[i].server, g, worlds[k].now, worlds[i].now);
  }

  /** The client after a complete activation reply that was saved. */
  lemma DeliveredClient(w: World, reply: Sent, url: string, upper: string -> string, defaultUrl: string, w': World)
    requires Next(w, DeliverActivation(reply, url, true, Kept), upper, defaultUrl, w')
    requires TrimSlashes(TrimSpace(url)) != "" && reply.grant.deviceId != "" && reply.grant.token != ""
    requires reply.grant.licenseId != ""
    ensures var g := reply.grant;
      && w'.client.deviceId == g.deviceId && w'.client.token == Sealed(g.token)
      && w'.client.license == Info(g) && w'.client.lease == Some(g.leaseExpiresAt)
      && w'.now == w.now && w'.server == w.server
  {
    hide TrimSlashes, TrimSpace;
  }

  /** From end to end: right after the reply of the latest activation has been delivered and saved, and while its
      lease runs, the client counts as activated, and the server accepts the device and the token that it kept. */
  lemma DeliveredCredentialWorks(worlds: seq<World>, steps: seq<Step>, upper: string -> string, defaultUrl: string,
                                 k: nat, i: nat, g: Grant, url: string)
    requires ProtocolRun(worlds, steps, upper, defaultUrl) && k < i < |steps|
    requires Grants(worlds, steps, upper, k, g) && Unsuperseded(worlds, steps, upper, k, i, g)
    requires steps[i] == DeliverActivation(Sent(g, worlds[k].now), url, true, Kept)
    requires TrimSlashes(TrimSpace(url)) != "" && g.token != "" && g.licenseId != ""
    requires TrimSpace(g.deviceId) == g.deviceId != "" && worlds[i].now < g.leaseExpiresAt
    ensures var c, now := worlds[i + 1].client, worlds[i + 1].now;
      && c.deviceId == g.deviceId && c.token == Sealed(g.token) && IsActivated(c, now)
      && Authorize(worlds[i + 1].server, c.deviceId, Some(c.token.token), now).Ok?
  {
    assert Next(worlds[i], steps[i], upper, defaultUrl, worlds[i + 1]);
    hide ProtocolRun, Next, Grants, Unsuperseded, Honors, TrimSpace, TrimSlashes, Authorize;
    DeliveredClient(worlds[i], Sent(g, worlds[k].now), url, upper, defaultUrl, worlds[i + 1]);
    HonoredSince(worlds, steps, upper, defaultUrl, k, i, g);
    CredentialWorks(worlds, steps, upper, defaultUrl, k, i, g);
  }

  // ----- where a client's credential comes from -----

  /** A reply that carries a token was sent by an activation. */
  ghost predicate SentByActivation(worlds: seq<World>, steps: seq<Step>, upper: string -> string, i: nat, s: Sent)
    requires |worlds| == |steps| + 1 && i < |worlds|
  {
    exists k :: 0 <= k < i && Grants(worlds, steps, upper, k, s.grant) && worlds[k].now == s.at
  }

  lemma TokenGrant(s: Records, c: Call, upper: string -> string)
    requires GrantOf(s, c, upper).Some? && GrantOf(s, c, upper).value.token != ""
    ensures c.event.Activate?
  {
    hide PlanCreate, PlanUpdate, PlanIssue, PlanActivate, PlanRevoke, PlanRelease, CheckCredential, HeartbeatIn;
  }

  lemma {:induction false} TokensAreSentByActivations(worlds: seq<World>, steps: seq<Step>, upper: string -> string,
                                                      defaultUrl: string, i: nat, s: Sent)
    requires ProtocolRun(worlds, steps, upper, defaultUrl) && i < |worlds|
    requires s in worlds[i].sent && s.grant.token != ""
    ensures SentByActivation(worlds, steps, upper, i, s)
  {
    hide FreshIds, After, GrantOf, Delivers, StoreOk;
    if i > 0 {
      assert Next(worlds[i - 1], steps[i - 1], upper, defaultUrl, worlds[i]);
      if s in worlds[i - 1].sent {
        TokensAreSentByActivations(worlds, steps, upper, defaultUrl, i - 1, s);
      } else {
        OnlyServingSends(worlds[i - 1], steps[i - 1], upper, defaultUrl, worlds[i]);
        TokenGrant(worlds[i - 1].server, steps[i - 1].call, upper);
        assert Grants(worlds, steps, upper, i - 1, s.grant);
      }
    }
  }

  lemma OnlyServingSends(w: World, step: Step, upper: string -> string, defaultUrl: string, w': World)
    requires Next(w, step, upper, defaultUrl, w')
    ensures !step.Serve? ==> w'.sent == w.sent
  {
    hide Received, TrimSpace;
  }

  /** Whatever was lost, repeated, refused or interrupted: the device and the token that a client keeps are those
      of one activation, and until that is superseded the server accepts them while its lease runs. */
  lemma KeptCredentialWorks(worlds: seq<World>, steps: seq<Step>, upper: string -> string, defaultUrl: string, i: nat)
    returns (k: nat, g: Grant)
    requires ProtocolRun(worlds, steps, upper, defaultUrl) && i < |worlds|
    requires worlds[i].client.deviceId != "" || worlds[i].client.token != Nothing
    ensures k < i && Grants(worlds, steps, upper, k, g)
    ensures worlds[i].client.deviceId == g.deviceId && worlds[i].client.token == Sealed(g.token)
    ensures Unsuperseded(worlds, steps, upper, k, i, g) && TrimSpace(g.deviceId) == g.deviceId
            && worlds[i].now < g.leaseExpiresAt ==>
              Authorize(worlds[i].server, worlds[i].client.deviceId, Some(worlds[i].client.token.token),
                        worlds[i].now).Ok?
  {
    RunKeepsWorldOk(worlds, steps, upper, defaultUrl, i);
    hide ProtocolRun, StoreOk, SentOk, Authorize, TrimSpace, Unsuperseded, Grants;
    var s :| s in worlds[i].sent && CredentialFrom(worlds[i].client, s);
    g := s.grant;
    TokensAreSentByActivations(worlds, steps, upper, defaultUrl, i, s);
    k :| 0 <= k < i && Grants(worlds, steps, upper, k, g) && worlds[k].now == s.at;
    if Unsuperseded(worlds, steps, upper, k, i, g) && TrimSpace(g.deviceId) == g.deviceId
       && worlds[i].now < g.leaseExpiresAt
    {
      CredentialWorks(worlds, steps, upper, defaultUrl, k, i, g);
    }
  }
}
