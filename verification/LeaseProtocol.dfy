/** Server and client together: how long a client can go on after its license was revoked. Replies may be
    lost, delayed, repeated and reordered; the clock is shared and never goes back. */
module LeaseProtocol {
  import opened Prelude
  import opened Text
  import opened LicensingModel
  import opened LicensingInvariant
  import opened LicensingRuns
  import opened LicensingGuarantees
  import opened LicensingEffects
  import opened LicenseClient

  /** A reply the server has sent, and when. */
  datatype Sent = Sent(grant: Grant, at: Time)

  datatype World = World(now: Time, server: Records, sent: set<Sent>, client: ClientState, saved: ClientState)

  /** What becomes of a change the client makes: saved, taken back, or interrupted by a crash before or after
      the file was replaced. */
  datatype Saving = Kept | TakenBack | CrashBefore | CrashAfter

  datatype Step =
    | Tick(now: Time)
    | Serve(call: Call)
    | DeliverActivation(reply: Sent, url: string, sealing: bool, saving: Saving)
    | DeliverHeartbeat(reply: Sent, saving: Saving)
    | DeliverError(status: string, message: string, saving: Saving)
    | Reopen

  function Info(g: Grant): LicenseInfo {
    LicenseInfo(g.licenseId, if g.status == Revoked then "revoked" else if g.expired then "expired" else "active",
                g.expiresAt)
  }

  /** The client after a message. */
  ghost predicate Delivers(w: World, m: Message, sealing: bool, saving: Saving, defaultUrl: string, w': World) {
    var next := Received(w.client, m, w.now);
    if !Complete(m) || !sealing then w' == w
    else match saving
      case Kept => w' == w.(client := next, saved := next)
      case TakenBack => w' == w
      case CrashBefore => w' == w.(client := Opened(w.saved, defaultUrl))
      case CrashAfter => w' == w.(client := Opened(next, defaultUrl), saved := next)
  }

  function AddSent(sent: set<Sent>, g: Option<Grant>, now: Time): set<Sent> {
    if g.Some? then sent + {Sent(g.value, now)} else sent
  }

  ghost predicate Next(w: World, step: Step, upper: string -> string, defaultUrl: string, w': World) {
    match step
    case Tick(now) => w.now <= now && w' == w.(now := now)
    case Serve(call) =>
      && call.event.now == w.now && FreshIds(w.server, call.event)
      && w' == w.(server := After(w.server, call, upper),
                  sent := AddSent(w.sent, GrantOf(w.server, call, upper), w.now))
    case DeliverActivation(reply, url, sealing, saving) =>
      && reply in w.sent
      && var g := reply.grant;
      Delivers(w, ActivationReply(url, g.deviceId, g.token, Info(g), g.leaseExpiresAt), sealing, saving, defaultUrl, w')
    case DeliverHeartbeat(reply, saving) =>
      && reply in w.sent
      && Delivers(w, HeartbeatReply(Info(reply.grant), reply.grant.leaseExpiresAt), true, saving, defaultUrl, w')
    case DeliverError(status, message, saving) =>
      Delivers(w, RemoteError(status, message), true, saving, defaultUrl, w')
    case Reopen => w' == w.(client := Opened(w.saved, defaultUrl))
  }

  /** A server without records and a client that was never activated. */
  ghost predicate Start(w: World, defaultUrl: string) {
    && w.server == EMPTY && w.sent == {}
    && w.saved.license == NO_LICENSE && w.saved.lease.None? && w.saved.deviceId == "" && w.saved.token == Nothing
    && w.client == Opened(w.saved, defaultUrl)
  }

  ghost predicate ProtocolRun(worlds: seq<World>, steps: seq<Step>, upper: string -> string, defaultUrl: string) {
    && |worlds| == |steps| + 1
    && Start(worlds[0], defaultUrl)
    && forall i :: 0 <= i < |steps| ==> Next(worlds[i], steps[i], upper, defaultUrl, worlds[i + 1])
  }

  // ----- what the server puts into a reply -----

  /** A reply is for a license that is in force; its lease is at most a day long and ends with the license. */
  ghost predicate SoundGrant(s: Sent) {
    && s.grant.leaseExpiresAt == LeaseExpiry(s.at, s.grant.expiresAt)
    && s.grant.status == Valid && !s.grant.expired
  }

  lemma HeartbeatGrant(s: Records, c: Call, upper: string -> string)
    requires StoreOk(s) && c.event.Heartbeat? && GrantOf(s, c, upper).Some?
    ensures var g := GrantOf(s, c, upper).value;
      SoundGrant(Sent(g, c.event.now)) && g.licenseId in s.licenses && s.licenses[g.licenseId].status == Valid
  {
    var Heartbeat(id, now, bearer) := c.event;
    ValidOf(s);
    HeartbeatEffect(s, id, bearer, now);
    hide StoreOk, ValidRecords, PlanHeartbeat, CanRenew, TrimSpace;
  }

  lemma ActivationGrant(s: Records, c: Call, upper: string -> string)
    requires StoreOk(s) && FreshIds(s, c.event) && c.event.Activate? && GrantOf(s, c, upper).Some?
    ensures var g := GrantOf(s, c, upper).value;
      SoundGrant(Sent(g, c.event.now)) && g.licenseId in s.licenses && s.licenses[g.licenseId].status == Valid
  {
    var Activate(request, now, token, sealing, newId) := c.event;
    ValidOf(s);
    assert IdentityOk(s.devices);
    hide StoreOk, ValidRecords, IdentityOk, PlanActivate, TrimSpace, IsDevice;
    var code := ActivateEffect(s, request, upper, now, token, sealing, newId);
  }

  lemma GrantIsSound(s: Records, c: Call, upper: string -> string)
    requires StoreOk(s) && FreshIds(s, c.event) && GrantOf(s, c, upper).Some?
    ensures var g := GrantOf(s, c, upper).value;
      SoundGrant(Sent(g, c.event.now)) && g.licenseId in s.licenses && s.licenses[g.licenseId].status == Valid
  {
    assert c.event.Activate? || c.event.Heartbeat? by {
      hide PlanCreate, PlanUpdate, PlanIssue, PlanActivate, PlanHeartbeat, PlanRevoke, PlanRelease;
    }
    hide PlanOf, StoreOk, FreshIds, SoundGrant, GrantOf;
    if c.event.Activate? {
      ActivationGrant(s, c, upper);
    } else {
      HeartbeatGrant(s, c, upper);
    }
  }

  /** A revocation is dated by the call that made it, and keeps its date. */
  lemma RevokedAtStep(s: Records, c: Call, upper: string -> string, l: string)
    requires StoreOk(s) && FreshIds(s, c.event) && IsRevoked(After(s, c, upper), l)
    ensures After(s, c, upper).licenses[l].revokedAt
            == if IsRevoked(s, l) then s.licenses[l].revokedAt else Some(c.event.now)
  {
    hide StoreOk, PlanOf, FreshIds, SameDevice, RevokeIn;
    var p := PlanOf(s, c.event, upper);
    if p.Change? && c.stored {
      if c.event.Activate? {
        var code, id, r := ActivateShape(s, c, upper);
      } else if IsRewrite(c.event) {
        RewriteDates(s, c, upper, l);
      } else {
        GenerateShape(s, c, upper);
      }
    }
  }

  lemma RewriteDates(s: Records, c: Call, upper: string -> string, l: string)
    requires IsRewrite(c.event) && PlanOf(s, c.event, upper).Change?
    requires IsRevoked(PlanOf(s, c.event, upper).next, l)
    ensures PlanOf(s, c.event, upper).next.licenses[l].revokedAt
            == if IsRevoked(s, l) then s.licenses[l].revokedAt else Some(c.event.now)
  {
    hide TrimSpace, ActiveDevices;
  }

  // ----- the invariant -----

  /** No reply for a license was sent after it was revoked. */
  ghost predicate SentBefore(server: Records, s: Sent) {
    var l := s.grant.licenseId;
    IsRevoked(server, l) ==> server.licenses[l].revokedAt.Some? && s.at <= server.licenses[l].revokedAt.value
  }

  ghost predicate SentOk(w: World) {
    forall s <- w.sent :: s.at <= w.now && SoundGrant(s) && SentBefore(w.server, s)
  }

  /** The client's lease and license come from one and the same reply. */
  predicate From(c: ClientState, s: Sent) {
    && c.license.id == s.grant.licenseId && c.license.expiresAt == s.grant.expiresAt
    && c.lease == Some(s.grant.leaseExpiresAt)
  }

  /** Device id and token come from one and the same reply, and that of an activation: heartbeat replies carry
      no token. */
  predicate CredentialFrom(c: ClientState, s: Sent) {
    && c.deviceId == s.grant.deviceId && c.token == Sealed(s.grant.token)
    && s.grant.deviceId != "" && s.grant.token != ""
  }

  ghost predicate Backed(sent: set<Sent>, c: ClientState) {
    && (c.lease.Some? ==> exists s :: s in sent && From(c, s))
    && (c.deviceId != "" || c.token != Nothing ==> exists s :: s in sent && CredentialFrom(c, s))
  }

  ghost predicate WorldOk(w: World, defaultUrl: string) {
    && StoreOk(w.server) && SentOk(w)
    && Backed(w.sent, w.client) && Backed(w.sent, w.saved) && w.client == Opened(w.saved, defaultUrl)
  }

  lemma ReceivedIsBacked(w: World, m: Message, s: Option<Sent>)
    requires Backed(w.sent, w.client) && Complete(m)
    requires m.RemoteError? || (s.Some? && s.value in w.sent)
    requires m.ActivationReply? || m.HeartbeatReply? ==>
               m.license == Info(s.value.grant) && m.lease == s.value.grant.leaseExpiresAt
    requires m.ActivationReply? ==> m.deviceId == s.value.grant.deviceId && m.token == s.value.grant.token
    ensures Backed(w.sent, Received(w.client, m, w.now))
  {
    hide TrimSlashes, TrimSpace;
    var next := Received(w.client, m, w.now);
    if next.lease.Some? {
      if m.RemoteError? {
        var t :| t in w.sent && From(w.client, t);
        assert From(next, t);
      } else {
        assert From(next, s.value);
      }
    }
    if m.ActivationReply? {
      assert CredentialFrom(next, s.value);
    } else if next.deviceId != "" || next.token != Nothing {
      var t :| t in w.sent && CredentialFrom(w.client, t);
      assert CredentialFrom(next, t);
    }
  }

  lemma OpenedIsBacked(sent: set<Sent>, c: ClientState, defaultUrl: string)
    requires Backed(sent, c)
    ensures Backed(sent, Opened(c, defaultUrl))
  {
    hide TrimSpace;
    var next := Opened(c, defaultUrl);
    if next.lease.Some? {
      var t :| t in sent && From(c, t);
      assert From(next, t);
    }
    if next.deviceId != "" || next.token != Nothing {
      var t :| t in sent && CredentialFrom(c, t);
      assert CredentialFrom(next, t);
    }
  }

  lemma DeliversKeeps(w: World, m: Message, sealing: bool, saving: Saving, defaultUrl: string, w': World)
    requires WorldOk(w, defaultUrl) && Delivers(w, m, sealing, saving, defaultUrl, w')
    requires Complete(m) ==> Backed(w.sent, Received(w.client, m, w.now))
    ensures WorldOk(w', defaultUrl)
  {
    hide StoreOk, SentBefore, SoundGrant, Backed;
    if Complete(m) {
      OpenedIsBacked(w.sent, Received(w.client, m, w.now), defaultUrl);
    }
  }

  lemma SentKept(w: World, call: Call, upper: string -> string, s: Sent)
    requires StoreOk(w.server)
    requires s.at <= w.now && SentBefore(w.server, s) && call.event.now == w.now && FreshIds(w.server, call.event)
    ensures SentBefore(After(w.server, call, upper), s)
  {
    hide StoreOk, PlanOf, FreshIds, After;
    if IsRevoked(After(w.server, call, upper), s.grant.licenseId) {
      RevokedAtStep(w.server, call, upper, s.grant.licenseId);
    }
  }

  lemma ServeKeeps(w: World, call: Call, upper: string -> string, defaultUrl: string, w': World)
    requires WorldOk(w, defaultUrl) && Next(w, Serve(call), upper, defaultUrl, w')
    ensures WorldOk(w', defaultUrl)
  {
    hide StoreOk, PlanOf, FreshIds, After, GrantOf, SentBefore, SoundGrant, From, CredentialFrom;
    AfterKeeps(w.server, call, upper);
    forall s <- w'.sent ensures s.at <= w'.now && SoundGrant(s) && SentBefore(w'.server, s) {
      if s in w.sent {
        SentKept(w, call, upper, s);
      } else {
        GrantIsSound(w.server, call, upper);
        GrantNotRevoked(w.server, call, upper);
        NotRevokedSentBefore(w'.server, s);
      }
    }
  }

  lemma NotRevokedSentBefore(server: Records, s: Sent)
    requires !IsRevoked(server, s.grant.licenseId)
    ensures SentBefore(server, s)
  {
  }

  lemma AfterKeeps(s: Records, c: Call, upper: string -> string)
    requires StoreOk(s) && FreshIds(s, c.event)
    ensures StoreOk(After(s, c, upper))
  {
    hide StoreOk, PlanOf, FreshIds;
    if PlanOf(s, c.event, upper).Change? {
      PlanKeeps(s, c.event, upper);
    }
  }

  lemma GrantNotRevoked(s: Records, c: Call, upper: string -> string)
    requires StoreOk(s) && FreshIds(s, c.event) && GrantOf(s, c, upper).Some?
    ensures !IsRevoked(After(s, c, upper), GrantOf(s, c, upper).value.licenseId)
  {
    var l := GrantOf(s, c, upper).value.licenseId;
    assert !c.event.Revoke? by {
      hide PlanCreate, PlanUpdate, PlanIssue, PlanActivate, PlanHeartbeat, PlanRevoke, PlanRelease;
    }
    hide StoreOk, PlanOf, FreshIds, After, GrantOf;
    GrantIsSound(s, c, upper);
    RevokedStep(s, c, upper, l);
  }

  lemma NextKeeps(w: World, step: Step, upper: string -> string, defaultUrl: string, w': World)
    requires WorldOk(w, defaultUrl) && Next(w, step, upper, defaultUrl, w')
    ensures WorldOk(w', defaultUrl)
  {
    hide StoreOk, PlanOf, FreshIds, After, GrantOf, SentBefore, SoundGrant, From, CredentialFrom, Received;
    match step
    case Tick(_) =>
    case Serve(call) => ServeKeeps(w, call, upper, defaultUrl, w');
    case DeliverActivation(reply, url, sealing, saving) =>
      var g := reply.grant;
      var m := ActivationReply(url, g.deviceId, g.token, Info(g), g.leaseExpiresAt);
      if Complete(m) {
        ReceivedIsBacked(w, m, Some(reply));
      }
      DeliversKeeps(w, m, sealing, saving, defaultUrl, w');
    case DeliverHeartbeat(reply, saving) =>
      var m := HeartbeatReply(Info(reply.grant), reply.grant.leaseExpiresAt);
      ReceivedIsBacked(w, m, Some(reply));
      DeliversKeeps(w, m, true, saving, defaultUrl, w');
    case DeliverError(status, message, saving) =>
      ReceivedIsBacked(w, RemoteError(status, message), None);
      DeliversKeeps(w, RemoteError(status, message), true, saving, defaultUrl, w');
    case Reopen =>
      OpenedIsBacked(w.sent, w.saved, defaultUrl);
  }

  lemma {:induction false} RunKeepsWorldOk(worlds: seq<World>, steps: seq<Step>, upper: string -> string,
                                           defaultUrl: string, i: nat)
    requires ProtocolRun(worlds, steps, upper, defaultUrl) && i < |worlds|
    ensures WorldOk(worlds[i], defaultUrl)
    decreases i
  {
    hide StoreOk, Next, SentBefore, SoundGrant, From, CredentialFrom;
    if i == 0 {
      EmptyStoreOk();
    } else {
      RunKeepsWorldOk(worlds, steps, upper, defaultUrl, i - 1);
      NextKeeps(worlds[i - 1], steps[i - 1], upper, defaultUrl, worlds[i]);
    }
  }

  // ----- the guarantees -----

  /** A client is activated only under a reply the server sent: before the delivered lease, which is at most a
      day after the reply, and before the delivered expiry. */
  lemma ActivatedUnderReply(worlds: seq<World>, steps: seq<Step>, upper: string -> string, defaultUrl: string, i: nat)
    returns (s: Sent)
    requires ProtocolRun(worlds, steps, upper, defaultUrl) && i < |worlds|
    requires IsActivated(worlds[i].client, worlds[i].now)
    ensures s in worlds[i].sent && s.grant.licenseId == worlds[i].client.license.id
    ensures s.at <= worlds[i].now < s.grant.leaseExpiresAt <= s.at + LEASE_DURATION
    ensures s.grant.expiresAt.Some? ==> worlds[i].now < s.grant.expiresAt.value
    ensures SentBefore(worlds[i].server, s)
  {
    RunKeepsWorldOk(worlds, steps, upper, defaultUrl, i);
    hide StoreOk, SentBefore, ProtocolRun;
    s :| s in worlds[i].sent && From(worlds[i].client, s);
  }

  /** The client's memory is what it would read back from its file, also after changes it had to take back. */
  lemma MemoryIsFile(worlds: seq<World>, steps: seq<Step>, upper: string -> string, defaultUrl: string, i: nat)
    requires ProtocolRun(worlds, steps, upper, defaultUrl) && i < |worlds|
    ensures worlds[i].client == Opened(worlds[i].saved, defaultUrl)
  {
    RunKeepsWorldOk(worlds, steps, upper, defaultUrl, i);
    hide StoreOk, SentOk, ProtocolRun;
  }

  /** A license that is revoked stays so, dated no later than the call that revoked it. */
  lemma {:induction false} RevokedBy(worlds: seq<World>, steps: seq<Step>, upper: string -> string, defaultUrl: string,
                                     k: nat, i: nat, l: string)
    requires ProtocolRun(worlds, steps, upper, defaultUrl) && k < i < |worlds|
    requires steps[k].Serve? && RevokesLicense(worlds[k].server, steps[k].call, upper, l)
    ensures IsRevoked(worlds[i].server, l) && worlds[i].server.licenses[l].revokedAt.Some?
    ensures worlds[i].server.licenses[l].revokedAt.value <= worlds[k].now
    decreases i
  {
    hide StoreOk, FreshIds, RevokesLicense, PlanOf, After, SentOk, GrantOf, Delivers;
    var w, step := worlds[i - 1], steps[i - 1];
    assert Next(w, step, upper, defaultUrl, worlds[i]);
    RunKeepsWorldOk(worlds, steps, upper, defaultUrl, i - 1);
    if k < i - 1 {
      RevokedBy(worlds, steps, upper, defaultUrl, k, i - 1, l);
    }
    if step.Serve? {
      RevokedStep(w.server, step.call, upper, l);
      RevokedAtStep(w.server, step.call, upper, l);
      if k == i - 1 && IsRevoked(w.server, l) {
        RevocationDated(worlds, steps, upper, defaultUrl, k, l);
      }
    } else {
      ServerUntouched(w, step, upper, defaultUrl, worlds[i]);
    }
  }

  lemma ServerUntouched(w: World, step: Step, upper: string -> string, defaultUrl: string, w': World)
    requires Next(w, step, upper, defaultUrl, w') && !step.Serve?
    ensures w'.server == w.server
  {
  }

  /** Revocations are not dated in the future. */
  lemma {:induction false} RevocationDated(worlds: seq<World>, steps: seq<Step>, upper: string -> string,
                                           defaultUrl: string,
                                           i: nat, l: string)
    requires ProtocolRun(worlds, steps, upper, defaultUrl) && i < |worlds| && IsRevoked(worlds[i].server, l)
    ensures worlds[i].server.licenses[l].revokedAt.Some?
    ensures worlds[i].server.licenses[l].revokedAt.value <= worlds[i].now
    decreases i
  {
    hide StoreOk, FreshIds, PlanOf, After, SentOk, GrantOf, Delivers;
    if i > 0 {
      var w, step := worlds[i - 1], steps[i - 1];
      RunKeepsWorldOk(worlds, steps, upper, defaultUrl, i - 1);
      TimeForward(w, step, upper, defaultUrl, worlds[i]);
      if step.Serve? {
        RevokedAtStep(w.server, step.call, upper, l);
      } else {
        ServerUntouched(w, step, upper, defaultUrl, worlds[i]);
      }
      if IsRevoked(w.server, l) {
        RevocationDated(worlds, steps, upper, defaultUrl, i - 1, l);
      }
    }
  }

  lemma TimeForward(w: World, step: Step, upper: string -> string, defaultUrl: string, w': World)
    requires Next(w, step, upper, defaultUrl, w')
    ensures w.now <= w'.now
  {
  }

  /** Bounded staleness: whatever is lost, delayed or repeated, a client holding a license that was revoked
      counts as activated for less than a day after the revocation. */
  lemma StalenessIsBounded(worlds: seq<World>, steps: seq<Step>, upper: string -> string, defaultUrl: string,
                           k: nat, i: nat)
    requires ProtocolRun(worlds, steps, upper, defaultUrl) && k < i < |worlds|
    requires steps[k].Serve?
    requires RevokesLicense(worlds[k].server, steps[k].call, upper, worlds[i].client.license.id)
    requires IsActivated(worlds[i].client, worlds[i].now)
    ensures worlds[i].now < worlds[k].now + LEASE_DURATION
  {
    hide ProtocolRun, RevokesLicense, IsActivated;
    RevokedBy(worlds, steps, upper, defaultUrl, k, i, worlds[i].client.license.id);
    var s := ActivatedUnderReply(worlds, steps, upper, defaultUrl, i);
  }

  /** The client has just been given a full lease for a license without an expiry that is in force. */
  ghost predicate HasFullLease(w: World) {
    && IsActivated(w.client, w.now)
    && w.client.lease == Some(w.now + LEASE_DURATION) && w.client.license.expiresAt.None?
    && w.client.license.id == TrimSpace(w.client.license.id)
    && w.client.license.id in w.server.licenses && !IsRevoked(w.server, w.client.license.id)
  }

  /** The bound cannot be improved: from any run whose client has just been given a full lease without a license
      expiry, revoking the license and waiting leads to a client that is still activated one tick before the
      day is over. */
  lemma StalenessIsReached(worlds: seq<World>, steps: seq<Step>, upper: string -> string, defaultUrl: string)
    returns (worlds': seq<World>, steps': seq<Step>)
    requires ProtocolRun(worlds, steps, upper, defaultUrl)
    requires HasFullLease(worlds[|steps|])
    ensures ProtocolRun(worlds', steps', upper, defaultUrl)
    ensures var k, i := |steps|, |steps| + 2;
      && |worlds'| == i + 1 && worlds <= worlds' && worlds'[i].client == worlds[k].client
      && steps'[k].Serve? && RevokesLicense(worlds'[k].server, steps'[k].call, upper, worlds'[i].client.license.id)
      && IsActivated(worlds'[i].client, worlds'[i].now)
      && worlds'[i].now == worlds'[k].now + LEASE_DURATION - 1
  {
    var w := worlds[|steps|];
    var call := Call(Revoke(w.client.license.id, w.now), true);
    var w1 := w.(server := After(w.server, call, upper));
    var w2 := w1.(now := w.now + LEASE_DURATION - 1);
    worlds' := worlds + [w1, w2];
    steps' := steps + [Serve(call), Tick(w2.now)];
    assert Next(w, Serve(call), upper, defaultUrl, w1);
    assert Next(w1, Tick(w2.now), upper, defaultUrl, w2);
  }

  // ----- a run with a full lease -----

  /** A client that was installed but never activated. */
  const NEW_CLIENT := ClientState("m", "i", "", Nothing, NO_LICENSE, None, None, "")

  function NewDraws(plain: string): Draws {
    seq(ISSUE_ATTEMPTS, (i: nat) => Draw(Some(plain), Some("K")))
  }

  function Created(plain: string): Records {
    Records(map["L" := License("L", "c", Valid, None, 1, 0, 0, None)],
            map["K" := Code("K", "L", Mac("code", plain), Available, 0, None, "")], map[])
  }

  function BoundDevice(): Device {
    Activated(None, "D", "L", ActivateRequest("", "i", "p", ""), "t", 0, LEASE_DURATION)
  }

  lemma Trimmed()
    ensures TrimSpace("c") == "c" && TrimSpace("C") == "C" && TrimSpace("i") == "i" && TrimSpace("p") == "p"
    ensures TrimSpace("L") == "L" && TrimSpace("m") == "m" && TrimSpace("") == ""
    ensures ByteLength("c") == 1 && ByteLength("i") == 1 && ByteLength("p") == 1 && ByteLength("") == 0
  {
  }

  lemma CreatesLicense(plain: string)
    ensures var p := PlanCreate(EMPTY, CreateRequest("c", None, 1), 0, Some("L"), NewDraws(plain));
      p == Change(Created(plain), Issued("L", plain))
  {
    Trimmed();
    hide TrimSpace, ByteLength;
    var draws := NewDraws(plain);
    var with := EMPTY.(licenses := EMPTY.licenses["L" := NewLicense("L", CreateRequest("c", None, 1), 0)]);
    assert draws[0] == Draw(Some(plain), Some("K"));
    assert IssueCodeIn(with, "L", 0, draws, 0) == Change(Created(plain), Issued("L", plain));
  }

  lemma BindsDevice(upper: string -> string)
    requires upper("C") != ""
    ensures var s := Created(upper("C"));
      PlanActivate(s, ActivateRequest("C", "i", "p", ""), upper, 0, Some("t"), true, Some("D"))
      == Change(ActivateIn(s, "K", BoundDevice(), 0), MakeGrant(BoundDevice(), "t", s.licenses["L"], 0))
  {
    Trimmed();
    hide TrimSpace, ByteLength;
    var s := Created(upper("C"));
    var r := ActivateRequest(upper("C"), "i", "p", "");
    assert Normalize(ActivateRequest("C", "i", "p", ""), upper) == r;
    assert s.codes["K"].digest == Mac("code", r.code);
    assert CodeWith(s.codes, Mac("code", r.code)) == Some("K");
    assert ActiveDevices(s.devices, "L") == {};
    assert UsableCode(s, r, 0) == Ok("K");
  }

  function CreateCall(upper: string -> string): Call {
    Call(Create(CreateRequest("c", None, 1), 0, Some("L"), NewDraws(upper("C"))), true)
  }

  function ActivateCall(): Call {
    Call(Activate(ActivateRequest("C", "i", "p", ""), 0, Some("t"), true, Some("D")), true)
  }

  const FIRST_GRANT := Grant("D", "t", "L", Valid, false, None, LEASE_DURATION)

  lemma ServesCreate(w: World, upper: string -> string, defaultUrl: string)
    requires w.server == EMPTY && w.now == 0
    ensures Next(w, Serve(CreateCall(upper)), upper, defaultUrl, w.(server := Created(upper("C"))))
  {
    CreatesLicense(upper("C"));
    hide PlanCreate;
  }

  function Bound(plain: string): Records {
    ActivateIn(Created(plain), "K", BoundDevice(), 0)
  }

  lemma ServesActivate(w: World, upper: string -> string, defaultUrl: string)
    requires w.server == Created(upper("C")) && w.now == 0 && w.sent == {} && upper("C") != ""
    ensures Next(w, Serve(ActivateCall()), upper, defaultUrl,
                 w.(server := Bound(upper("C")), sent := {Sent(FIRST_GRANT, 0)}))
  {
    BindsDevice(upper);
    GrantsFirst(upper("C"));
    hide PlanActivate, Created, BoundDevice, ActivateIn, MakeGrant;
    assert {} + {Sent(FIRST_GRANT, 0)} == {Sent(FIRST_GRANT, 0)};
  }

  lemma GrantsFirst(plain: string)
    ensures "L" in Created(plain).licenses && "D" !in Created(plain).devices
    ensures MakeGrant(BoundDevice(), "t", Created(plain).licenses["L"], 0) == FIRST_GRANT
    ensures "L" in Bound(plain).licenses && Bound(plain).licenses["L"].status == Valid
  {
  }

  /** The client after the reply. */
  function Leased(): ClientState {
    Received(NEW_CLIENT, ActivationReply("m", "D", "t", Info(FIRST_GRANT), LEASE_DURATION), 0)
  }

  lemma DeliversFirst(w: World, upper: string -> string, defaultUrl: string)
    requires Sent(FIRST_GRANT, 0) in w.sent && w.client == NEW_CLIENT && w.now == 0
    ensures Next(w, DeliverActivation(Sent(FIRST_GRANT, 0), "m", true, Kept), upper, defaultUrl,
                 w.(client := Leased(), saved := Leased()))
  {
    Trimmed();
    hide TrimSpace;
    assert TrimSlashes("m") == "m";
  }

  lemma LeasedIsActivated()
    ensures IsActivated(Leased(), 0) && Leased().lease == Some(LEASE_DURATION)
    ensures Leased().license == LicenseInfo("L", "active", None) && TrimSpace("L") == "L"
  {
    Trimmed();
    hide TrimSpace;
  }

  /** A run after which the client has just been given a full lease, for any upper-casing that leaves something of
      a code. */
  lemma FullLeaseRun(upper: string -> string, defaultUrl: string) returns (worlds: seq<World>, steps: seq<Step>)
    requires upper("C") != ""
    ensures ProtocolRun(worlds, steps, upper, defaultUrl) && |steps| == 3
    ensures HasFullLease(worlds[3])
  {
    hide Next, Created, Bound, Leased, IsActivated, TrimSpace, CreateCall, ActivateCall, ProtocolRun;
    var reply := Sent(FIRST_GRANT, 0);
    var w0 := World(0, EMPTY, {}, NEW_CLIENT, NEW_CLIENT);
    var w1 := w0.(server := Created(upper("C")));
    var w2 := w1.(server := Bound(upper("C")), sent := {reply});
    var w3 := w2.(client := Leased(), saved := Leased());
    ServesCreate(w0, upper, defaultUrl);
    ServesActivate(w1, upper, defaultUrl);
    DeliversFirst(w2, upper, defaultUrl);
    RunOfThree(w0, w1, w2, w3, Serve(CreateCall(upper)), Serve(ActivateCall()),
               DeliverActivation(reply, "m", true, Kept), upper, defaultUrl);
    GrantsFirst(upper("C"));
    LeasedIsActivated();
    worlds := [w0, w1, w2, w3];
    steps := [Serve(CreateCall(upper)), Serve(ActivateCall()), DeliverActivation(reply, "m", true, Kept)];
  }

  lemma RunOfThree(w0: World, w1: World, w2: World, w3: World, a: Step, b: Step, c: Step, upper: string -> string,
                   defaultUrl: string)
    requires Start(w0, defaultUrl) && Next(w0, a, upper, defaultUrl, w1) && Next(w1, b, upper, defaultUrl, w2)
    requires Next(w2, c, upper, defaultUrl, w3)
    ensures ProtocolRun([w0, w1, w2, w3], [a, b, c], upper, defaultUrl)
  {
    hide Next, Start;
  }

  /** The bound is reached: a run in which a license is revoked and its client still counts as activated one tick
      before a day has passed. */
  lemma BoundIsTight(upper: string -> string, defaultUrl: string) returns (worlds: seq<World>, steps: seq<Step>)
    requires upper("C") != ""
    ensures ProtocolRun(worlds, steps, upper, defaultUrl) && |steps| == 5 && steps[3].Serve?
    ensures RevokesLicense(worlds[3].server, steps[3].call, upper, worlds[5].client.license.id)
    ensures IsActivated(worlds[5].client, worlds[5].now)
    ensures worlds[5].now == worlds[3].now + LEASE_DURATION - 1
  {
    hide ProtocolRun, IsActivated, IsRevoked, RevokesLicense, TrimSpace;
    worlds, steps := FullLeaseRun(upper, defaultUrl);
    worlds, steps := StalenessIsReached(worlds, steps, upper, defaultUrl);
  }
}
