/** What each operation of the licensing store is for, in terms of the records before and after: when it
    succeeds, and what it then leaves. */
module LicensingEffects {
  import opened Prelude
  import opened Text
  import opened LicensingModel
  import opened LicensingInvariant
  import opened LicensingRuns

  /** A lease given at `now`: 24 hours, but no longer than the license. */
  predicate LeasedAt(lease: Time, now: Time, expiresAt: Option<Time>) {
    var day := 86_400_000_000_000;
    lease == if expiresAt.None? then now + day else Min(now + day, expiresAt.value)
  }

  /** The license is not revoked and has not expired. */
  predicate InForce(s: Records, l: string, now: Time) {
    && l in s.licenses && s.licenses[l].status == Valid
    && (s.licenses[l].expiresAt.Some? ==> now < s.licenses[l].expiresAt.value)
  }

  predicate ActiveUnder(d: Device, l: string) {
    d.licenseId == l && d.status == DeviceActive
  }

  ghost function CountActive(s: Records, l: string): nat {
    |set d | d in s.devices && ActiveUnder(s.devices[d], l)|
  }

  // ----- codes -----

  predicate InUse(s: Records, plain: string) {
    exists c :: c in s.codes && s.codes[c].digest == Mac("code", plain)
  }

  /** One of the eight attempts draws a code that is not in use, and no random failure comes before. */
  ghost predicate CanDraw(s: Records, draws: Draws) {
    exists k :: 0 <= k < 8 && draws[k].plain.Some? && draws[k].id.Some? && !InUse(s, draws[k].plain.value)
      && forall j :: 0 <= j < k ==> draws[j].plain.Some? && InUse(s, draws[j].plain.value)
  }

  /** Exactly one code was added: unused, for the license, with a secret no other code has. */
  ghost predicate CodeAdded(s: Records, s': Records, l: string, now: Time, issued: Issued) {
    && issued.licenseId == l && !InUse(s, issued.plain)
    && exists c :: c !in s.codes
         && s'.codes == s.codes[c := Code(c, l, Mac("code", issued.plain), Available, now, None, "")]
  }

  lemma {:induction false} DrawIff(s: Records, l: string, now: Time, draws: Draws, i: nat)
    requires i <= 8 && forall j :: 0 <= j < i ==> draws[j].plain.Some? && InUse(s, draws[j].plain.value)
    ensures IssueCodeIn(s, l, now, draws, i).Change? <==> CanDraw(s, draws)
    decreases 8 - i
  {
    hide InUse;
    if i < 8 && draws[i].plain.Some? {
      assert InUse(s, draws[i].plain.value) <==> KnownDigest(s.codes, Mac("code", draws[i].plain.value)) by {
        SameUse(s, draws[i].plain.value);
      }
      hide KnownDigest;
      if InUse(s, draws[i].plain.value) {
        DrawIff(s, l, now, draws, i + 1);
      }
    }
  }

  lemma SameUse(s: Records, plain: string)
    ensures InUse(s, plain) <==> KnownDigest(s.codes, Mac("code", plain))
  {
  }

  lemma DrawAdds(s: Records, l: string, now: Time, draws: Draws)
    requires FreshCodes(s, draws) && IssueCodeIn(s, l, now, draws, 0).Change?
    ensures var p := IssueCodeIn(s, l, now, draws, 0);
      CodeAdded(s, p.next, l, now, p.response) && p.next == s.(codes := p.next.codes)
  {
    hide IssueCodeIn, InUse, KnownDigest;
    IssueAdds(s, l, now, draws, 0);
    SameUse(s, IssueCodeIn(s, l, now, draws, 0).response.plain);
  }

  // ----- creating and updating a license -----

  ghost predicate CanCreate(s: Records, request: CreateRequest, now: Time, id: Option<string>, draws: Draws) {
    && TrimSpace(request.customer) != "" && ByteLength(TrimSpace(request.customer)) <= 256
    && 1 <= request.deviceLimit <= 10000
    && (request.expiresAt.Some? ==> now < request.expiresAt.value)
    && id.Some? && CanDraw(s, draws)
  }

  /** The license is there as requested, with one code; nothing else has changed. */
  ghost predicate Created(s: Records, s': Records, request: CreateRequest, now: Time, id: string, issued: Issued) {
    && id in s'.licenses && s'.licenses == s.licenses[id := s'.licenses[id]] && s'.devices == s.devices
    && var l := s'.licenses[id];
    && l.id == id && l.customer == TrimSpace(request.customer) && l.status == Valid && l.revokedAt.None?
    && l.expiresAt == request.expiresAt && l.deviceLimit == request.deviceLimit
    && l.createdAt == l.updatedAt == now
    && CodeAdded(s, s', id, now, issued)
  }

  /** A license is created exactly for an acceptable request, and as requested. */
  lemma CreateEffect(s: Records, request: CreateRequest, now: Time, id: Option<string>, draws: Draws)
    requires FreshCodes(s, draws)
    ensures var p := PlanCreate(s, request, now, id, draws);
      && (p.Change? <==> CanCreate(s, request, now, id, draws)) && !p.Answer?
      && (p.Change? ==> Created(s, p.next, request, now, id.value, p.response))
  {
    hide TrimSpace, ByteLength, IssueCodeIn, FreshCodes, CanDraw, CodeAdded;
    if id.Some? {
      var with := s.(licenses := s.licenses[id.value := NewLicense(id.value, request, now)]);
      SameCodes(s, with, draws);
      DrawIff(with, id.value, now, draws, 0);
      IssueAdds(with, id.value, now, draws, 0);
      if IssueCodeIn(with, id.value, now, draws, 0).Change? {
        DrawAdds(with, id.value, now, draws);
        SameAdded(s, with, IssueCodeIn(with, id.value, now, draws, 0).next, id.value, now,
                  IssueCodeIn(with, id.value, now, draws, 0).response);
      }
    }
  }

  lemma SameCodes(s: Records, with: Records, draws: Draws)
    requires with.codes == s.codes
    ensures CanDraw(with, draws) <==> CanDraw(s, draws)
    ensures FreshCodes(with, draws) <==> FreshCodes(s, draws)
  {
    assert forall plain :: InUse(with, plain) <==> InUse(s, plain);
    hide InUse;
  }

  lemma SameAdded(s: Records, with: Records, s': Records, l: string, now: Time, issued: Issued)
    requires with.codes == s.codes
    ensures CodeAdded(with, s', l, now, issued) <==> CodeAdded(s, s', l, now, issued)
  {
    assert InUse(with, issued.plain) <==> InUse(s, issued.plain);
    hide InUse;
  }

  ghost predicate CanUpdate(s: Records, l: string, request: UpdateRequest, now: Time) {
    && l in s.licenses && s.licenses[l].status == Valid
    && 1 <= request.deviceLimit <= 10000 && CountActive(s, l) <= request.deviceLimit
    && (request.expiresAt.Some? ==> now < request.expiresAt.value)
  }

  /** The license has the requested limit and expiry, its active devices have a lease under the new expiry,
      and nothing else has changed. */
  ghost predicate Updated(s: Records, s': Records, l: string, request: UpdateRequest, now: Time) {
    && l in s.licenses && l in s'.licenses && s'.licenses == s.licenses[l := s'.licenses[l]]
    && s'.licenses[l].deviceLimit == request.deviceLimit && s'.licenses[l].expiresAt == request.expiresAt
    && s'.licenses[l] == s.licenses[l].(deviceLimit := s'.licenses[l].deviceLimit,
                                        expiresAt := s'.licenses[l].expiresAt, updatedAt := now)
    && s'.codes == s.codes && s'.devices.Keys == s.devices.Keys
    && forall d <- s.devices ::
         if ActiveUnder(s.devices[d], l) then
           && LeasedAt(s'.devices[d].leaseExpiresAt, now, request.expiresAt)
           && s'.devices[d] == s.devices[d].(leaseExpiresAt := s'.devices[d].leaseExpiresAt)
         else s'.devices[d] == s.devices[d]
  }

  lemma SameCount(s: Records, l: string)
    ensures |ActiveDevices(s.devices, l)| == CountActive(s, l)
  {
    assert ActiveDevices(s.devices, l) == set d | d in s.devices && ActiveUnder(s.devices[d], l);
  }

  lemma UpdateEffect(s: Records, licenseId: string, request: UpdateRequest, now: Time)
    ensures var p, l := PlanUpdate(s, licenseId, request, now), TrimSpace(licenseId);
      && (p.Change? <==> CanUpdate(s, l, request, now)) && !p.Answer?
      && (p.Change? ==> p.response == l && Updated(s, p.next, l, request, now))
  {
    hide TrimSpace;
    SameCount(s, TrimSpace(licenseId));
    hide ActiveDevices, CountActive;
  }

  // ----- issuing a code -----

  lemma IssueEffect(s: Records, licenseId: string, now: Time, draws: Draws)
    requires FreshCodes(s, draws)
    ensures var p, l := PlanIssue(s, licenseId, now, draws), TrimSpace(licenseId);
      && (p.Change? <==> InForce(s, l, now) && CanDraw(s, draws)) && !p.Answer?
      && (p.Change? ==> CodeAdded(s, p.next, l, now, p.response) && p.next == s.(codes := p.next.codes))
  {
    hide TrimSpace, IssueCodeIn, FreshCodes, CanDraw, CodeAdded;
    DrawIff(s, TrimSpace(licenseId), now, draws, 0);
    IssueAdds(s, TrimSpace(licenseId), now, draws, 0);
    if IssueCodeIn(s, TrimSpace(licenseId), now, draws, 0).Change? {
      DrawAdds(s, TrimSpace(licenseId), now, draws);
    }
  }

  // ----- activation -----

  /** The code that is asked for: unused, and of a license in force. */
  predicate Redeemable(s: Records, c: string, plain: string, now: Time) {
    && c in s.codes && s.codes[c].digest == Mac("code", plain) && s.codes[c].status == Available
    && InForce(s, s.codes[c].licenseId, now)
  }

  predicate IsDevice(s: Records, d: string, l: string, installation: string, key: string) {
    && d in s.devices && s.devices[d].licenseId == l
    && s.devices[d].installationId == installation && s.devices[d].publicKey == key
  }

  /** A device that is active already needs no room under the limit; any other does. */
  ghost predicate HasRoom(s: Records, l: string, installation: string, key: string) {
    || (exists d :: IsDevice(s, d, l, installation, key) && s.devices[d].status == DeviceActive)
    || (l in s.licenses && CountActive(s, l) < s.licenses[l].deviceLimit)
  }

  ghost predicate OtherKey(s: Records, installation: string, key: string) {
    exists d :: d in s.devices && s.devices[d].installationId == installation && s.devices[d].publicKey != key
  }

  ghost predicate CanActivate(s: Records, request: ActivateRequest, upper: string -> string, now: Time,
                              token: Option<string>, sealing: bool, newId: Option<string>)
  {
    var plain := upper(TrimSpace(request.code));
    var installation, key, title :=
      TrimSpace(request.installationId), TrimSpace(request.publicKey), TrimSpace(request.deviceLabel);
    && plain != "" && installation != "" && key != ""
    && ByteLength(installation) <= 256 && ByteLength(key) <= 4096 && ByteLength(title) <= 256
    && !OtherKey(s, installation, key) && token.Some? && sealing
    && exists c :: Redeemable(s, c, plain, now)
         && HasRoom(s, s.codes[c].licenseId, installation, key)
         && (newId.Some? || exists d :: IsDevice(s, d, s.codes[c].licenseId, installation, key))
  }

  /** The code is consumed by the device with the requested identity, known or new, which is active with the new
      token and lease; the reply says so, and nothing else has changed. */
  ghost predicate ActivatedBy(s: Records, s': Records, c: string, request: ActivateRequest, now: Time, token: string,
                              newId: Option<string>, g: Grant)
    requires c in s.codes
  {
    var l, d := s.codes[c].licenseId, g.deviceId;
    && l in s.licenses && d in s'.devices
    && s'.codes == s.codes[c := s.codes[c].(status := Consumed, deviceId := d, consumedAt := Some(now))]
    && s'.licenses == s.licenses[l := s.licenses[l].(updatedAt := now)]
    && s'.devices == s.devices[d := s'.devices[d]]
    && IsDevice(s', d, l, TrimSpace(request.installationId), TrimSpace(request.publicKey))
    && (d in s.devices ==> IsDevice(s, d, l, TrimSpace(request.installationId), TrimSpace(request.publicKey)))
    && (d !in s.devices ==> newId == Some(d))
    && var device := s'.devices[d];
    && device.id == d && device.deviceLabel == TrimSpace(request.deviceLabel) && device.status == DeviceActive
    && device.tokenDigest == Mac("token", token) && device.encryptedToken == Sealed(token)
    && LeasedAt(device.leaseExpiresAt, now, s.licenses[l].expiresAt)
    && device.releasedAt.None? && device.revokedAt.None?
    && device.activatedAt == (if d in s.devices then s.devices[d].activatedAt else now)
    && device.lastHeartbeatAt == (if d in s.devices then s.devices[d].lastHeartbeatAt else None)
    && g == Grant(d, token, l, Valid, false, s.licenses[l].expiresAt, device.leaseExpiresAt)
  }

  lemma SameConflict(s: Records, installation: string, key: string)
    ensures Conflicts(s.devices, installation, key) <==> OtherKey(s, installation, key)
  {
  }

  lemma OnlyCode(s: Records, plain: string, c: string)
    requires DigestsUnique(s.codes) && c in s.codes && s.codes[c].digest == Mac("code", plain)
    ensures CodeWith(s.codes, Mac("code", plain)) == Some(c)
  {
  }

  lemma NoCode(s: Records, plain: string)
    ensures CodeWith(s.codes, Mac("code", plain)).None? ==>
              forall c <- s.codes :: s.codes[c].digest != Mac("code", plain)
    ensures CodeWith(s.codes, Mac("code", plain)).Some? ==>
              var c := CodeWith(s.codes, Mac("code", plain)).value;
              c in s.codes && s.codes[c].digest == Mac("code", plain)
  {
  }

  lemma ForceIff(s: Records, l: string, now: Time)
    ensures InForce(s, l, now) <==> l in s.licenses && Usable(s.licenses[l], now).None?
  {
  }

  lemma UsableIff(s: Records, r: ActivateRequest, now: Time, c: string)
    requires DigestsUnique(s.codes)
    ensures UsableCode(s, r, now) == Ok(c)
            <==> Acceptable(r) && !OtherKey(s, r.installationId, r.publicKey) && Redeemable(s, c, r.code, now)
  {
    hide CodeWith, DigestsUnique, Acceptable, Conflicts, OtherKey, Usable, InForce;
    SameConflict(s, r.installationId, r.publicKey);
    NoCode(s, r.code);
    if c in s.codes && s.codes[c].digest == Mac("code", r.code) {
      OnlyCode(s, r.code, c);
      ForceIff(s, s.codes[c].licenseId, now);
    }
  }

  lemma OnlyDevice(s: Records, l: string, installation: string, key: string)
    requires IdentityOk(s.devices)
    ensures var known := DeviceWith(s.devices, l, installation, key);
      && (forall d :: IsDevice(s, d, l, installation, key) <==> known == Some(d))
      && (known.Some? ==> known.value in s.devices)
  {
    var known := DeviceWith(s.devices, l, installation, key);
    if known.Some? {
      assert IsDevice(s, known.value, l, installation, key);
    }
    forall d | IsDevice(s, d, l, installation, key) ensures known == Some(d) {
      assert SameDevice(s.devices[d], l, installation, key);
    }
  }

  lemma BindingIff(s: Records, c: string, r: ActivateRequest, now: Time, token: Option<string>, sealing: bool,
                   newId: Option<string>)
    requires IdentityOk(s.devices) && c in s.codes && s.codes[c].licenseId in s.licenses
    ensures var p, l := PlanBinding(s, c, r, now, token, sealing, newId), s.codes[c].licenseId;
      && !p.Answer?
      && (p.Change? <==>
            && HasRoom(s, l, r.installationId, r.publicKey) && token.Some? && sealing
            && (newId.Some? || exists d :: IsDevice(s, d, l, r.installationId, r.publicKey)))
  {
    var l := s.codes[c].licenseId;
    OnlyDevice(s, l, r.installationId, r.publicKey);
    SameCount(s, l);
    hide IdentityOk, DeviceWith, IsDevice, CountActive, ActiveDevices, Activated, ActivateIn, MakeGrant;
  }

  /** What a successful activation needs: an unused code of a license in force, an installation not known with
      another key, room under the limit unless the device is active already, and working random sources. */
  lemma ActivateIff(s: Records, request: ActivateRequest, upper: string -> string, now: Time,
                    token: Option<string>, sealing: bool, newId: Option<string>)
    requires DigestsUnique(s.codes) && IdentityOk(s.devices)
    ensures PlanActivate(s, request, upper, now, token, sealing, newId).Change?
            <==> CanActivate(s, request, upper, now, token, sealing, newId)
    ensures !PlanActivate(s, request, upper, now, token, sealing, newId).Answer?
  {
    var r := Normalize(request, upper);
    forall c ensures UsableCode(s, r, now) == Ok(c) <==>
        Acceptable(r) && !OtherKey(s, r.installationId, r.publicKey) && Redeemable(s, c, r.code, now)
    {
      UsableIff(s, r, now, c);
    }
    hide UsableCode, PlanBinding, OtherKey, IdentityOk, DigestsUnique, HasRoom, IsDevice, InForce;
    if UsableCode(s, r, now).Ok? {
      var c := UsableCode(s, r, now).value;
      assert Redeemable(s, c, r.code, now);
      ForceLicense(s, s.codes[c].licenseId, now);
      BindingIff(s, c, r, now, token, sealing, newId);
    }
    hide TrimSpace, ByteLength;
  }

  lemma ForceLicense(s: Records, l: string, now: Time)
    requires InForce(s, l, now)
    ensures l in s.licenses
  {
  }

  /** What the device becomes, and that nothing else has changed. */
  lemma BoundEffect(s: Records, c: string, r: ActivateRequest, request: ActivateRequest, now: Time, token: string,
                    newId: Option<string>, known: Option<Device>, id: string)
    requires c in s.codes && InForce(s, s.codes[c].licenseId, now)
    requires s.licenses[s.codes[c].licenseId].id == s.codes[c].licenseId
    requires r.installationId == TrimSpace(request.installationId) && r.publicKey == TrimSpace(request.publicKey)
    requires r.deviceLabel == TrimSpace(request.deviceLabel)
    requires known == Lookup(s.devices, id) && (known.None? ==> newId == Some(id))
    requires known.Some? ==> known.value.id == id
    requires known.Some? ==> IsDevice(s, id, s.codes[c].licenseId, r.installationId, r.publicKey)
    ensures var l := s.codes[c].licenseId;
      var device := Activated(known, id, l, r, token, now, LeaseExpiry(now, s.licenses[l].expiresAt));
      ActivatedBy(s, ActivateIn(s, c, device, now), c, request, now, token, newId,
                  MakeGrant(device, token, s.licenses[l].(updatedAt := now), now))
  {
    hide TrimSpace;
  }

  lemma BindingEffect(s: Records, c: string, r: ActivateRequest, request: ActivateRequest, now: Time,
                      token: Option<string>, sealing: bool, newId: Option<string>)
    requires ValidRecords(s) && IdentityOk(s.devices) && (newId.Some? ==> newId.value !in s.devices)
    requires c in s.codes && InForce(s, s.codes[c].licenseId, now)
    requires r.installationId == TrimSpace(request.installationId) && r.publicKey == TrimSpace(request.publicKey)
    requires r.deviceLabel == TrimSpace(request.deviceLabel)
    ensures var p := PlanBinding(s, c, r, now, token, sealing, newId);
      p.Change? ==> token.Some? && ActivatedBy(s, p.next, c, request, now, token.value, newId, p.response)
  {
    var l := s.codes[c].licenseId;
    var known := DeviceWith(s.devices, l, r.installationId, r.publicKey);
    ForceLicense(s, l, now);
    OnlyDevice(s, l, r.installationId, r.publicKey);
    StoredIds(s, l, known);
    hide IdentityOk, ValidRecords, DeviceWith, ActiveDevices, TrimSpace, InForce, IsDevice, ActivatedBy, Activated,
         ActivateIn, MakeGrant;
    if PlanBinding(s, c, r, now, token, sealing, newId).Change? {
      var id := if known.Some? then known.value else newId.value;
      BoundEffect(s, c, r, request, now, token.value, newId, Lookup(s.devices, id), id);
    }
  }

  lemma StoredIds(s: Records, l: string, d: Option<string>)
    requires ValidRecords(s) && l in s.licenses && (d.Some? ==> d.value in s.devices)
    ensures s.licenses[l].id == l && (d.Some? ==> s.devices[d.value].id == d.value)
  {
    hide DigestsUnique;
  }

  /** A successful activation redeems the code that was asked for, for the device that was asked for. */
  lemma ActivateEffect(s: Records, request: ActivateRequest, upper: string -> string, now: Time,
                       token: Option<string>, sealing: bool, newId: Option<string>)
    returns (c: string)
    requires ValidRecords(s) && IdentityOk(s.devices) && (newId.Some? ==> newId.value !in s.devices)
    requires PlanActivate(s, request, upper, now, token, sealing, newId).Change?
    ensures Redeemable(s, c, upper(TrimSpace(request.code)), now) && token.Some?
    ensures var p := PlanActivate(s, request, upper, now, token, sealing, newId);
      ActivatedBy(s, p.next, c, request, now, token.value, newId, p.response)
  {
    var r := Normalize(request, upper);
    c := UsableCode(s, r, now).value;
    assert DigestsUnique(s.codes);
    UsableIff(s, r, now, c);
    hide UsableCode, PlanBinding, IdentityOk, DigestsUnique, ValidRecords, TrimSpace, ByteLength, InForce, ActivatedBy;
    ForceLicense(s, s.codes[c].licenseId, now);
    BindingEffect(s, c, r, request, now, token, sealing, newId);
  }

  // ----- renewal -----

  predicate CanRenew(s: Records, d: string, bearer: Option<string>, now: Time) {
    && d != "" && d in s.devices && s.devices[d].status == DeviceActive
    && bearer.Some? && s.devices[d].tokenDigest == Mac("token", bearer.value)
    && InForce(s, s.devices[d].licenseId, now)
  }

  /** The device has a lease from now on; nothing else has changed. */
  predicate RenewedAt(s: Records, s': Records, d: string, now: Time, g: Grant) {
    && d in s.devices && s.devices[d].licenseId in s.licenses && d in s'.devices
    && var l := s.devices[d].licenseId;
    && s'.codes == s.codes && s'.licenses == s.licenses[l := s.licenses[l].(updatedAt := now)]
    && LeasedAt(s'.devices[d].leaseExpiresAt, now, s.licenses[l].expiresAt)
    && s'.devices == s.devices[d := s.devices[d].(lastHeartbeatAt := Some(now),
                                                  leaseExpiresAt := s'.devices[d].leaseExpiresAt)]
    && g == Grant(d, "", l, Valid, false, s.licenses[l].expiresAt, s'.devices[d].leaseExpiresAt)
  }

  /** A heartbeat succeeds exactly for an active device with its token and a license in force, even when the
      lease has run out; it renews the lease and nothing else. */
  lemma HeartbeatEffect(s: Records, deviceId: string, bearer: Option<string>, now: Time)
    requires ValidRecords(s)
    ensures var p, d := PlanHeartbeat(s, deviceId, bearer, now), TrimSpace(deviceId);
      && (p.Change? <==> CanRenew(s, d, bearer, now)) && !p.Answer?
      && (p.Change? ==> RenewedAt(s, p.next, d, now, p.response))
  {
    hide TrimSpace;
    var d := TrimSpace(deviceId);
    if d in s.devices && s.devices[d].licenseId in s.licenses {
      StoredIds(s, s.devices[d].licenseId, Some(d));
    }
    hide ValidRecords;
  }

  /** Authorization, in the same terms: what a heartbeat needs, and a lease that has not run out. */
  lemma AuthorizeEffect(s: Records, deviceId: string, bearer: Option<string>, now: Time)
    requires ValidRecords(s)
    ensures var r, d := Authorize(s, deviceId, bearer, now), TrimSpace(deviceId);
      && (r.Ok? <==> CanRenew(s, d, bearer, now) && now < s.devices[d].leaseExpiresAt)
      && (r.Ok? ==> var l := s.devices[d].licenseId;
            r.value == Grant(d, "", l, Valid, false, s.licenses[l].expiresAt, s.devices[d].leaseExpiresAt))
  {
    hide TrimSpace;
    var d := TrimSpace(deviceId);
    if d in s.devices && s.devices[d].licenseId in s.licenses {
      StoredIds(s, s.devices[d].licenseId, Some(d));
    }
    hide ValidRecords;
  }

  // ----- revocation and release -----

  /** The license and its active devices are revoked as of now; nothing else has changed. */
  predicate RevokedAt(s: Records, s': Records, l: string, now: Time) {
    && l in s.licenses && s'.codes == s.codes && s'.devices.Keys == s.devices.Keys
    && s'.licenses == s.licenses[l := s.licenses[l].(status := Revoked, revokedAt := Some(now), updatedAt := now)]
    && forall d <- s.devices ::
         if ActiveUnder(s.devices[d], l)
         then s'.devices[d] == s.devices[d].(status := DeviceRevoked, revokedAt := Some(now))
         else s'.devices[d] == s.devices[d]
  }

  /** Every known license can be revoked; revoking it again changes nothing. */
  lemma RevokeEffect(s: Records, licenseId: string, now: Time)
    ensures var p, l := PlanRevoke(s, licenseId, now), TrimSpace(licenseId);
      && (p.Refuse? <==> l !in s.licenses)
      && (p.Change? <==> l in s.licenses && s.licenses[l].status == Valid)
      && (p.Change? ==> p.response == l && RevokedAt(s, p.next, l, now))
      && (p.Answer? ==> p.response == l)
  {
    hide TrimSpace;
  }

  /** The device has neither status nor token left; of the rest, only the date of its license has changed. */
  predicate ReleasedAt(s: Records, s': Records, d: string, now: Time) {
    && d in s.devices && s'.codes == s.codes && s'.licenses.Keys == s.licenses.Keys
    && (forall l <- s.licenses ::
          s'.licenses[l] == if l == s.devices[d].licenseId then s.licenses[l].(updatedAt := now) else s.licenses[l])
    && s'.devices == s.devices[d := s.devices[d].(status := DeviceReleased, tokenDigest := NoDigest,
                                                  encryptedToken := Nothing, releasedAt := Some(now))]
  }

  /** Every known device can be released; releasing it again changes nothing. */
  lemma ReleaseEffect(s: Records, deviceId: string, now: Time)
    ensures var p, d := PlanRelease(s, deviceId, now), TrimSpace(deviceId);
      && (p.Refuse? <==> d !in s.devices)
      && (p.Change? <==> d in s.devices && s.devices[d].status != DeviceReleased)
      && (p.Change? ==> p.response == d && ReleasedAt(s, p.next, d, now))
      && (p.Answer? ==> p.response == d)
  {
    hide TrimSpace;
  }

  // ----- what the check on loading refuses -----

  predicate DanglingCode(s: Records, c: Code) {
    || c.licenseId !in s.licenses
    || (c.status == Consumed &&
          (c.consumedAt.None? || c.deviceId !in s.devices || s.devices[c.deviceId].licenseId != c.licenseId))
  }

  predicate DanglingDevice(s: Records, d: Device) {
    || d.licenseId !in s.licenses
    || (d.status == DeviceActive && (d.tokenDigest == NoDigest || d.encryptedToken == Nothing))
  }

  /** Records are refused exactly if one stands under the wrong id or lacks a required field, if a code or a device
      refers to something that is not there, or if two codes share a digest. */
  lemma RefusedIff(s: Records)
    ensures !ValidRecords(s) <==>
            || (exists l <- s.licenses ::
                  s.licenses[l].id != l || s.licenses[l].customer == "" || s.licenses[l].deviceLimit < 1)
            || (exists c <- s.codes :: s.codes[c].id != c || s.codes[c].digest == NoDigest)
            || (exists c <- s.codes :: DanglingCode(s, s.codes[c]))
            || (exists b, c :: b in s.codes && c in s.codes && b != c && s.codes[b].digest == s.codes[c].digest)
            || (exists d <- s.devices ::
                  s.devices[d].id != d || s.devices[d].installationId == "" || s.devices[d].publicKey == "")
            || (exists d <- s.devices :: DanglingDevice(s, s.devices[d]))
  {
    assert forall c <- s.codes ::
        CodeOk(s, c, s.codes[c])
        <==> s.codes[c].id == c && s.codes[c].digest != NoDigest && !DanglingCode(s, s.codes[c]);
    assert forall d <- s.devices ::
        DeviceOk(s, d, s.devices[d])
        <==> s.devices[d].id == d && s.devices[d].installationId != "" && s.devices[d].publicKey != ""
             && !DanglingDevice(s, s.devices[d]);
    hide CodeOk, DeviceOk, DanglingCode, DanglingDevice;
  }
}
