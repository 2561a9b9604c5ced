/** What every stored licensing state satisfies: the check made when it is loaded, and more. */
module LicensingInvariant {
  import opened Prelude
  import opened LicensingModel

  // ----- the check made on loading -----

  predicate LicenseOk(id: string, l: License) {
    l.id == id && l.customer != "" && l.deviceLimit >= 1
  }

  predicate CodeOk(s: Records, id: string, c: Code) {
    && c.id == id && c.digest != NoDigest && c.licenseId in s.licenses
    && (c.status == Consumed ==>
          c.deviceId in s.devices && s.devices[c.deviceId].licenseId == c.licenseId && c.consumedAt.Some?)
  }

  predicate DeviceOk(s: Records, id: string, d: Device) {
    && d.id == id && d.licenseId in s.licenses && d.installationId != "" && d.publicKey != ""
    && (d.status == DeviceActive ==> d.tokenDigest != NoDigest && d.encryptedToken != Nothing)
  }

  ghost predicate DigestsUnique(codes: map<string, Code>) {
    forall a, b :: a in codes && b in codes && a != b ==> codes[a].digest != codes[b].digest
  }

  /** validateDiskState. */
  ghost predicate ValidRecords(s: Records) {
    && (forall id <- s.licenses :: LicenseOk(id, s.licenses[id]))
    && (forall id <- s.codes :: CodeOk(s, id, s.codes[id]))
    && DigestsUnique(s.codes)
    && (forall id <- s.devices :: DeviceOk(s, id, s.devices[id]))
  }

  /** The check made by load on the sealed token of an active device. */
  predicate TokenOpens(d: Device) {
    d.status == DeviceActive ==> d.encryptedToken.Sealed? && d.tokenDigest == Mac("token", d.encryptedToken.token)
  }

  ghost predicate TokensOpen(devices: map<string, Device>) {
    forall id <- devices :: TokenOpens(devices[id])
  }

  // ----- what the check does not cover -----

  /** Active devices never exceed the limit of their license. */
  ghost predicate LimitsOk(s: Records) {
    forall id <- s.licenses :: |ActiveDevices(s.devices, id)| <= s.licenses[id].deviceLimit
  }

  /** One device per license, installation and key; and one key per installation. */
  ghost predicate IdentityOk(devices: map<string, Device>) {
    && (forall a, b :: a in devices && b in devices && a != b ==>
          !SameDevice(devices[a], devices[b].licenseId, devices[b].installationId, devices[b].publicKey))
    && (forall a, b :: a in devices && b in devices && devices[a].installationId == devices[b].installationId ==>
          devices[a].publicKey == devices[b].publicKey)
  }

  /** An active device's lease ends no later than its license. */
  ghost predicate LeasesOk(s: Records) {
    forall id <- s.devices :: s.devices[id].status == DeviceActive && s.devices[id].licenseId in s.licenses ==>
      var expiry := s.licenses[s.devices[id].licenseId].expiresAt;
      expiry.Some? ==> s.devices[id].leaseExpiresAt <= expiry.value
  }

  predicate IsRevoked(s: Records, licenseId: string) {
    licenseId in s.licenses && s.licenses[licenseId].status == Revoked
  }

  /** A revoked license says when, and has no active device; only such a license has revoked devices. */
  ghost predicate RevocationOk(s: Records) {
    && (forall id <- s.licenses :: s.licenses[id].status == Revoked <==> s.licenses[id].revokedAt.Some?)
    && (forall id <- s.devices :: IsRevoked(s, s.devices[id].licenseId) ==> s.devices[id].status != DeviceActive)
    && (forall id <- s.devices :: s.devices[id].status == DeviceRevoked ==> IsRevoked(s, s.devices[id].licenseId))
  }

  /** Every device was paid for with a code of its license. */
  ghost predicate PaidFor(codes: map<string, Code>, id: string, licenseId: string) {
    exists c :: c in codes && codes[c].status == Consumed && codes[c].deviceId == id && codes[c].licenseId == licenseId
  }

  ghost predicate DevicesPaid(s: Records) {
    forall id <- s.devices :: PaidFor(s.codes, id, s.devices[id].licenseId)
  }

  /** A released device has no token left. */
  ghost predicate ReleasedOk(devices: map<string, Device>) {
    forall id <- devices :: devices[id].status == DeviceReleased ==> devices[id].tokenDigest == NoDigest
  }

  ghost predicate StoreOk(s: Records) {
    && ValidRecords(s) && TokensOpen(s.devices)
    && LimitsOk(s) && IdentityOk(s.devices) && LeasesOk(s) && RevocationOk(s) && DevicesPaid(s)
    && ReleasedOk(s.devices)
  }

  lemma EmptyStoreOk()
    ensures StoreOk(EMPTY)
  {
  }

  // ----- operations -----

  /** Adding a license under an unused id. */
  lemma NewLicenseKeeps(s: Records, id: string, l: License)
    requires StoreOk(s) && id !in s.licenses && LicenseOk(id, l) && l.status == Valid && l.revokedAt.None?
    ensures StoreOk(s.(licenses := s.licenses[id := l]))
  {
    hide ValidRecords, TokensOpen, LimitsOk, IdentityOk, LeasesOk, RevocationOk, DevicesPaid, ReleasedOk, DigestsUnique;
    NewLicenseValid(s, id, l);
    NewLicenseLimits(s, id, l);
    NewLicenseRest(s, id, l);
    NewLicensePaid(s, id, l);
  }

  lemma NewLicenseValid(s: Records, id: string, l: License)
    requires ValidRecords(s) && id !in s.licenses && LicenseOk(id, l)
    ensures ValidRecords(s.(licenses := s.licenses[id := l]))
    ensures forall d <- s.devices :: s.devices[d].licenseId != id
  {
    hide DigestsUnique;
  }

  lemma NewLicensePaid(s: Records, id: string, l: License)
    requires DevicesPaid(s)
    ensures DevicesPaid(s.(licenses := s.licenses[id := l]))
  {
    hide PaidFor;
  }

  lemma NewLicenseLimits(s: Records, id: string, l: License)
    requires LimitsOk(s) && LicenseOk(id, l) && forall d <- s.devices :: s.devices[d].licenseId != id
    ensures LimitsOk(s.(licenses := s.licenses[id := l]))
  {
    assert ActiveDevices(s.devices, id) == {};
  }

  lemma NewLicenseRest(s: Records, id: string, l: License)
    requires LeasesOk(s) && RevocationOk(s) && forall d <- s.devices :: s.devices[d].licenseId != id
    requires id !in s.licenses && l.status == Valid && l.revokedAt.None?
    ensures LeasesOk(s.(licenses := s.licenses[id := l])) && RevocationOk(s.(licenses := s.licenses[id := l]))
  {
  }

  /** Adding an available code with an unused id and digest. */
  lemma NewCodeKeeps(s: Records, id: string, c: Code)
    requires StoreOk(s) && id !in s.codes && CodeOk(s, id, c)
    requires c.status == Available && !KnownDigest(s.codes, c.digest)
    ensures StoreOk(s.(codes := s.codes[id := c]))
  {
    hide ValidRecords, TokensOpen, LimitsOk, IdentityOk, LeasesOk, RevocationOk, DevicesPaid, ReleasedOk, DigestsUnique;
    NewCodePaid(s, id, c);
    NewCodeValid(s, id, c);
    SameDevicesAndLicenses(s, s.(codes := s.codes[id := c]));
  }

  lemma NewCodeValid(s: Records, id: string, c: Code)
    requires ValidRecords(s) && id !in s.codes && CodeOk(s, id, c) && !KnownDigest(s.codes, c.digest)
    ensures ValidRecords(s.(codes := s.codes[id := c]))
  {
    NewCodeUnique(s.codes, id, c);
    hide DigestsUnique, KnownDigest;
  }

  lemma SameDevicesAndLicenses(s: Records, next: Records)
    requires LimitsOk(s) && LeasesOk(s) && RevocationOk(s) && next == s.(codes := next.codes)
    ensures LimitsOk(next) && LeasesOk(next) && RevocationOk(next)
  {
  }

  lemma NewCodeUnique(codes: map<string, Code>, id: string, c: Code)
    requires DigestsUnique(codes) && id !in codes && !KnownDigest(codes, c.digest)
    ensures DigestsUnique(codes[id := c])
  {
  }

  lemma NewCodePaid(s: Records, id: string, c: Code)
    requires DevicesPaid(s) && id !in s.codes
    ensures DevicesPaid(s.(codes := s.codes[id := c]))
  {
    var next := s.(codes := s.codes[id := c]);
    forall d <- next.devices ensures PaidFor(next.codes, d, next.devices[d].licenseId) {
      var p :| p in s.codes && s.codes[p].status == Consumed && s.codes[p].deviceId == d
            && s.codes[p].licenseId == s.devices[d].licenseId;
      assert next.codes[p] == s.codes[p];
    }
  }

  // ----- operations that rewrite records one by one -----

  predicate LicenseLike(l: License, l': License) {
    l'.id == l.id && l'.customer == l.customer && l'.deviceLimit >= 1
  }

  /** The identity of a device does not change, and it does not become active; its token is kept or dropped. */
  predicate DeviceLike(d: Device, d': Device) {
    && d'.id == d.id && d'.licenseId == d.licenseId
    && d'.installationId == d.installationId && d'.publicKey == d.publicKey
    && (d'.status == DeviceActive ==> d.status == DeviceActive)
    && (d'.status == DeviceReleased ==> d'.tokenDigest == NoDigest || d.status == DeviceReleased)
    && ((d'.tokenDigest == d.tokenDigest && d'.encryptedToken == d.encryptedToken) || d'.status == DeviceReleased)
    && (d.status == DeviceReleased ==> d' == d || d'.tokenDigest == NoDigest)
  }

  ghost predicate Rewrites(s: Records, next: Records) {
    && next.licenses.Keys == s.licenses.Keys && next.devices.Keys == s.devices.Keys && next.codes == s.codes
    && (forall l <- s.licenses :: LicenseLike(s.licenses[l], next.licenses[l]))
    && (forall d <- s.devices :: DeviceLike(s.devices[d], next.devices[d]))
  }

  lemma RewritesKeep(s: Records, next: Records)
    requires StoreOk(s) && Rewrites(s, next) && LimitsOk(next) && LeasesOk(next) && RevocationOk(next)
    ensures StoreOk(next)
  {
    hide LimitsOk, LeasesOk, RevocationOk, DigestsUnique;
    assert IdentityOk(next.devices) && DevicesPaid(next) by {
      hide ValidRecords, TokensOpen, ReleasedOk;
      RewritesKeepIdentity(s, next);
    }
    hide IdentityOk, DevicesPaid;
    assert ValidRecords(next);
    assert TokensOpen(next.devices);
    assert ReleasedOk(next.devices);
  }

  lemma RewritesKeepIdentity(s: Records, next: Records)
    requires IdentityOk(s.devices) && DevicesPaid(s) && Rewrites(s, next)
    ensures IdentityOk(next.devices) && DevicesPaid(next)
  {
    assert forall d <- s.devices :: DeviceLike(s.devices[d], next.devices[d]);
  }

  /** What a successful code generation adds. */
  lemma {:induction false} IssueAdds(s: Records, licenseId: string, now: Time, draws: Draws, i: nat)
    requires i <= ISSUE_ATTEMPTS
    ensures var p := IssueCodeIn(s, licenseId, now, draws, i);
      p.Change? ==>
        exists k :: i <= k < ISSUE_ATTEMPTS && draws[k].plain.Some? && draws[k].id.Some?
          && !KnownDigest(s.codes, Mac("code", draws[k].plain.value))
          && p.next == s.(codes := s.codes[draws[k].id.value :=
                          Code(draws[k].id.value, licenseId, Mac("code", draws[k].plain.value), Available, now, None,
                               "")])
          && p.response == Issued(licenseId, draws[k].plain.value)
    ensures !IssueCodeIn(s, licenseId, now, draws, i).Answer?
    decreases ISSUE_ATTEMPTS - i
  {
    if i < ISSUE_ATTEMPTS && draws[i].plain.Some? && KnownDigest(s.codes, Mac("code", draws[i].plain.value)) {
      IssueAdds(s, licenseId, now, draws, i + 1);
    }
  }

  /** The attempt met a code that is already in use. */
  predicate DrawTaken(s: Records, d: Draw) {
    d.plain.Some? && KnownDigest(s.codes, Mac("code", d.plain.value))
  }

  /** The first attempt that does not meet a used code decides: it issues its code if both random parts were
      to be had; if there is no such attempt, there is no unique code. */
  lemma {:induction false} FirstUnusedDecides(s: Records, licenseId: string, now: Time, draws: Draws, i: nat)
    requires i <= ISSUE_ATTEMPTS
    ensures IssueCodeIn(s, licenseId, now, draws, i) == Refuse(NoUniqueCode)
            <==> forall j :: i <= j < ISSUE_ATTEMPTS ==> DrawTaken(s, draws[j])
    ensures forall k :: i <= k < ISSUE_ATTEMPTS && !DrawTaken(s, draws[k])
                        && (forall j :: i <= j < k ==> DrawTaken(s, draws[j])) ==>
              if draws[k].plain.Some? && draws[k].id.Some?
              then IssueCodeIn(s, licenseId, now, draws, i) == Change(
                     s.(codes := s.codes[draws[k].id.value := Code(draws[k].id.value, licenseId,
                          Mac("code", draws[k].plain.value), Available, now, None, "")]),
                     Issued(licenseId, draws[k].plain.value))
              else IssueCodeIn(s, licenseId, now, draws, i) == Refuse(RandomFailed)
    decreases ISSUE_ATTEMPTS - i
  {
    hide KnownDigest;
    if i < ISSUE_ATTEMPTS && DrawTaken(s, draws[i]) {
      FirstUnusedDecides(s, licenseId, now, draws, i + 1);
    }
  }

  /** The random source never repeats an id that is in use. */
  ghost predicate FreshCodes(s: Records, draws: Draws) {
    forall k :: 0 <= k < ISSUE_ATTEMPTS && draws[k].id.Some? ==> draws[k].id.value !in s.codes
  }

  lemma IssueKeeps(s: Records, licenseId: string, now: Time, draws: Draws)
    requires StoreOk(s) && licenseId in s.licenses && FreshCodes(s, draws)
    requires IssueCodeIn(s, licenseId, now, draws, 0).Change?
    ensures StoreOk(IssueCodeIn(s, licenseId, now, draws, 0).next)
  {
    hide IssueCodeIn, StoreOk;
    IssueAdds(s, licenseId, now, draws, 0);
    var k :| 0 <= k < ISSUE_ATTEMPTS && draws[k].plain.Some? && draws[k].id.Some?
          && !KnownDigest(s.codes, Mac("code", draws[k].plain.value))
          && IssueCodeIn(s, licenseId, now, draws, 0).next == s.(codes := s.codes[draws[k].id.value :=
               Code(draws[k].id.value, licenseId, Mac("code", draws[k].plain.value), Available, now, None, "")]);
    NewCodeKeeps(s, draws[k].id.value,
                 Code(draws[k].id.value, licenseId, Mac("code", draws[k].plain.value), Available, now, None, ""));
  }

  lemma CreateKeeps(s: Records, request: CreateRequest, now: Time, id: Option<string>, draws: Draws)
    requires StoreOk(s) && FreshCodes(s, draws) && (id.Some? ==> id.value !in s.licenses)
    requires PlanCreate(s, request, now, id, draws).Change?
    ensures StoreOk(PlanCreate(s, request, now, id, draws).next)
  {
    hide IssueCodeIn, StoreOk;
    var l := NewLicense(id.value, request, now);
    NewLicenseKeeps(s, id.value, l);
    IssueKeeps(s.(licenses := s.licenses[id.value := l]), id.value, now, draws);
  }

  lemma UpdateKeeps(s: Records, id: string, request: UpdateRequest, now: Time)
    requires StoreOk(s) && id in s.licenses && s.licenses[id].status == Valid
    requires LimitOk(request.deviceLimit) && |ActiveDevices(s.devices, id)| <= request.deviceLimit
    ensures StoreOk(UpdateIn(s, id, request, now))
  {
    hide ValidRecords, TokensOpen, LimitsOk, IdentityOk, LeasesOk, RevocationOk, DevicesPaid, ReleasedOk,
         DigestsUnique, Rewrites, UpdateIn;
    UpdateRewrites(s, id, request, now);
    UpdateLimits(s, id, request, now);
    UpdateLeases(s, id, request, now);
    RewritesKeep(s, UpdateIn(s, id, request, now));
  }

  lemma UpdateRewrites(s: Records, id: string, request: UpdateRequest, now: Time)
    requires ValidRecords(s) && id in s.licenses && LimitOk(request.deviceLimit)
    ensures Rewrites(s, UpdateIn(s, id, request, now))
  {
    hide DigestsUnique;
  }

  lemma UpdateLimits(s: Records, id: string, request: UpdateRequest, now: Time)
    requires LimitsOk(s) && RevocationOk(s) && id in s.licenses
    requires |ActiveDevices(s.devices, id)| <= request.deviceLimit
    ensures LimitsOk(UpdateIn(s, id, request, now)) && RevocationOk(UpdateIn(s, id, request, now))
  {
    hide LimitsOk, RevocationOk, ActiveDevices, UpdateIn;
    UpdateCounts(s, id, request, now);
    UpdateRevocation(s, id, request, now);
  }

  lemma UpdateCounts(s: Records, id: string, request: UpdateRequest, now: Time)
    requires LimitsOk(s) && id in s.licenses && |ActiveDevices(s.devices, id)| <= request.deviceLimit
    ensures LimitsOk(UpdateIn(s, id, request, now))
  {
    var next := UpdateIn(s, id, request, now);
    assert forall d <- s.devices :: next.devices[d].licenseId == s.devices[d].licenseId
                                 && next.devices[d].status == s.devices[d].status;
    assert forall l :: ActiveDevices(next.devices, l) == ActiveDevices(s.devices, l);
  }

  lemma UpdateRevocation(s: Records, id: string, request: UpdateRequest, now: Time)
    requires RevocationOk(s) && id in s.licenses
    ensures RevocationOk(UpdateIn(s, id, request, now))
  {
    assert forall d <- s.devices ::
        UpdateIn(s, id, request, now).devices[d] == Renewed(s.devices[d], id, now, request.expiresAt);
  }

  lemma UpdateLeases(s: Records, id: string, request: UpdateRequest, now: Time)
    requires LeasesOk(s) && id in s.licenses
    ensures LeasesOk(UpdateIn(s, id, request, now))
  {
    var next := UpdateIn(s, id, request, now);
    assert forall d <- s.devices :: next.devices[d] == Renewed(s.devices[d], id, now, request.expiresAt);
  }

  lemma HeartbeatKeeps(s: Records, id: string, now: Time)
    requires StoreOk(s) && id in s.devices && s.devices[id].status == DeviceActive
    requires s.devices[id].licenseId in s.licenses
    ensures StoreOk(HeartbeatIn(s, id, now))
  {
    hide ValidRecords, TokensOpen, LimitsOk, IdentityOk, LeasesOk, RevocationOk, DevicesPaid, ReleasedOk,
         DigestsUnique, Rewrites, HeartbeatIn;
    HeartbeatRewrites(s, id, now);
    HeartbeatRest(s, id, now);
    RewritesKeep(s, HeartbeatIn(s, id, now));
  }

  lemma HeartbeatRewrites(s: Records, id: string, now: Time)
    requires ValidRecords(s) && id in s.devices && s.devices[id].licenseId in s.licenses
    requires s.devices[id].status == DeviceActive
    ensures Rewrites(s, HeartbeatIn(s, id, now))
  {
    hide DigestsUnique;
  }

  lemma HeartbeatRest(s: Records, id: string, now: Time)
    requires LimitsOk(s) && RevocationOk(s) && LeasesOk(s)
    requires id in s.devices && s.devices[id].licenseId in s.licenses
    ensures LimitsOk(HeartbeatIn(s, id, now)) && RevocationOk(HeartbeatIn(s, id, now))
    ensures LeasesOk(HeartbeatIn(s, id, now))
  {
    hide LimitsOk, RevocationOk, LeasesOk, HeartbeatIn;
    HeartbeatCounts(s, id, now);
    HeartbeatRevocation(s, id, now);
    HeartbeatLeases(s, id, now);
  }

  lemma HeartbeatCounts(s: Records, id: string, now: Time)
    requires LimitsOk(s) && id in s.devices && s.devices[id].licenseId in s.licenses
    ensures LimitsOk(HeartbeatIn(s, id, now))
  {
    var next := HeartbeatIn(s, id, now);
    assert forall l :: ActiveDevices(next.devices, l) == ActiveDevices(s.devices, l);
  }

  lemma HeartbeatRevocation(s: Records, id: string, now: Time)
    requires RevocationOk(s) && id in s.devices && s.devices[id].licenseId in s.licenses
    ensures RevocationOk(HeartbeatIn(s, id, now))
  {
  }

  lemma HeartbeatLeases(s: Records, id: string, now: Time)
    requires LeasesOk(s) && id in s.devices && s.devices[id].licenseId in s.licenses
    ensures LeasesOk(HeartbeatIn(s, id, now))
  {
  }

  lemma RevokeKeeps(s: Records, id: string, now: Time)
    requires StoreOk(s) && id in s.licenses
    ensures StoreOk(RevokeIn(s, id, now))
  {
    hide ValidRecords, TokensOpen, LimitsOk, IdentityOk, LeasesOk, RevocationOk, DevicesPaid, ReleasedOk,
         DigestsUnique, Rewrites, RevokeIn;
    RevokeRewrites(s, id, now);
    RevokeRest(s, id, now);
    RewritesKeep(s, RevokeIn(s, id, now));
  }

  lemma RevokeRewrites(s: Records, id: string, now: Time)
    requires ValidRecords(s) && id in s.licenses
    ensures Rewrites(s, RevokeIn(s, id, now))
  {
    hide DigestsUnique;
  }

  lemma RevokeRest(s: Records, id: string, now: Time)
    requires LimitsOk(s) && RevocationOk(s) && LeasesOk(s) && id in s.licenses
    ensures LimitsOk(RevokeIn(s, id, now)) && RevocationOk(RevokeIn(s, id, now)) && LeasesOk(RevokeIn(s, id, now))
  {
    hide LimitsOk, RevocationOk, LeasesOk, RevokeIn;
    RevokeLimits(s, id, now);
    RevokeRevocation(s, id, now);
    RevokeLeases(s, id, now);
  }

  lemma RevokeRevocation(s: Records, id: string, now: Time)
    requires RevocationOk(s) && id in s.licenses
    ensures RevocationOk(RevokeIn(s, id, now))
  {
    assert forall d <- s.devices :: RevokeIn(s, id, now).devices[d] == RevokedDevice(s.devices[d], id, now);
  }

  lemma RevokeLeases(s: Records, id: string, now: Time)
    requires LeasesOk(s) && id in s.licenses
    ensures LeasesOk(RevokeIn(s, id, now))
  {
    assert forall d <- s.devices :: RevokeIn(s, id, now).devices[d] == RevokedDevice(s.devices[d], id, now);
  }

  lemma RevokeLimits(s: Records, id: string, now: Time)
    requires LimitsOk(s) && id in s.licenses
    ensures LimitsOk(RevokeIn(s, id, now))
  {
    var next := RevokeIn(s, id, now);
    assert forall d <- next.devices :: next.devices[d].licenseId == s.devices[d].licenseId
             && (next.devices[d].status == DeviceActive ==> s.devices[d].status == DeviceActive);
    forall l <- s.licenses ensures |ActiveDevices(next.devices, l)| <= |ActiveDevices(s.devices, l)| {
      SubsetSize(ActiveDevices(next.devices, l), ActiveDevices(s.devices, l));
    }
  }

  lemma ReleaseKeeps(s: Records, id: string, now: Time)
    requires StoreOk(s) && id in s.devices
    ensures StoreOk(ReleaseIn(s, id, now))
  {
    hide ValidRecords, TokensOpen, LimitsOk, IdentityOk, LeasesOk, RevocationOk, DevicesPaid, ReleasedOk,
         DigestsUnique, Rewrites, ReleaseIn;
    ReleaseRewrites(s, id, now);
    ReleaseRest(s, id, now);
    RewritesKeep(s, ReleaseIn(s, id, now));
  }

  lemma ReleaseRewrites(s: Records, id: string, now: Time)
    requires ValidRecords(s) && id in s.devices
    ensures Rewrites(s, ReleaseIn(s, id, now))
  {
    hide DigestsUnique;
  }

  lemma ReleaseRest(s: Records, id: string, now: Time)
    requires LimitsOk(s) && RevocationOk(s) && LeasesOk(s) && id in s.devices
    ensures LimitsOk(ReleaseIn(s, id, now)) && RevocationOk(ReleaseIn(s, id, now)) && LeasesOk(ReleaseIn(s, id, now))
  {
    hide LimitsOk, RevocationOk, LeasesOk, ReleaseIn;
    ReleaseLimits(s, id, now);
    ReleaseRevocation(s, id, now);
    ReleaseLeases(s, id, now);
  }

  lemma ReleaseRevocation(s: Records, id: string, now: Time)
    requires RevocationOk(s) && id in s.devices
    ensures RevocationOk(ReleaseIn(s, id, now))
  {
  }

  lemma ReleaseLeases(s: Records, id: string, now: Time)
    requires LeasesOk(s) && id in s.devices
    ensures LeasesOk(ReleaseIn(s, id, now))
  {
  }

  lemma ReleaseLimits(s: Records, id: string, now: Time)
    requires LimitsOk(s) && id in s.devices
    ensures LimitsOk(ReleaseIn(s, id, now))
  {
    var next := ReleaseIn(s, id, now);
    assert forall d <- next.devices :: next.devices[d].licenseId == s.devices[d].licenseId
             && (next.devices[d].status == DeviceActive ==> s.devices[d].status == DeviceActive);
    forall l <- s.licenses ensures |ActiveDevices(next.devices, l)| <= |ActiveDevices(s.devices, l)| {
      SubsetSize(ActiveDevices(next.devices, l), ActiveDevices(s.devices, l));
    }
  }

  // ----- activation -----

  /** What a successful activation has established about the code, the license and the device. */
  ghost predicate Activates(s: Records, code: string, known: Option<string>, r: ActivateRequest, id: string) {
    && code in s.codes && s.codes[code].licenseId in s.licenses && s.codes[code].status == Available
    && var l := s.codes[code].licenseId;
    && s.licenses[l].status == Valid
    && r.installationId != "" && r.publicKey != ""
    && !Conflicts(s.devices, r.installationId, r.publicKey)
    && (known.Some? ==>
          known.value in s.devices && id == known.value && SameDevice(s.devices[id], l, r.installationId, r.publicKey))
    && (known.None? ==>
          id !in s.devices && forall d <- s.devices :: !SameDevice(s.devices[d], l, r.installationId, r.publicKey))
    && ((known.None? || s.devices[known.value].status != DeviceActive) ==>
          |ActiveDevices(s.devices, l)| < s.licenses[l].deviceLimit)
  }

  /** The stored state after the activation. */
  ghost function ActivatedStore(s: Records, code: string, known: Option<string>, r: ActivateRequest, id: string,
                                token: string, now: Time): Records
    requires Activates(s, code, known, r, id)
  {
    var l := s.codes[code].licenseId;
    ActivateIn(s, code,
               Activated(if known.Some? then Some(s.devices[known.value]) else None, id, l, r, token, now,
                         LeaseExpiry(now, s.licenses[l].expiresAt)), now)
  }

  /** `next` is `s` with the code consumed by device `id`, which becomes active. */
  ghost predicate Consumes(s: Records, code: string, r: ActivateRequest, id: string, next: Records) {
    && code in s.codes && s.codes[code].licenseId in s.licenses && s.codes[code].licenseId in next.licenses
    && id in next.devices && code in next.codes
    && var l := s.codes[code].licenseId;
    && next == Records(s.licenses[l := next.licenses[l]], s.codes[code := next.codes[code]],
                       s.devices[id := next.devices[id]])
    && next.licenses[l] == s.licenses[l].(updatedAt := next.licenses[l].updatedAt)
    && next.codes[code] == s.codes[code].(status := Consumed, deviceId := id, consumedAt := next.codes[code].consumedAt)
    && next.codes[code].consumedAt.Some?
    && next.devices[id].id == id && SameDevice(next.devices[id], l, r.installationId, r.publicKey)
    && next.devices[id].status == DeviceActive
  }

  /** How the activated device relates to the state before. */
  lemma ActivatedDevice(s: Records, code: string, known: Option<string>, r: ActivateRequest, id: string,
                        token: string, now: Time)
    requires Activates(s, code, known, r, id) && ValidRecords(s)
    ensures var next, l := ActivatedStore(s, code, known, r, id, token, now), s.codes[code].licenseId;
      && Consumes(s, code, r, id, next)
      && next.devices[id].tokenDigest == Mac("token", token) && next.devices[id].encryptedToken == Sealed(token)
      && next.devices[id].leaseExpiresAt == LeaseExpiry(now, s.licenses[l].expiresAt)
  {
    hide DigestsUnique;
  }

  lemma ActivateKeeps(s: Records, code: string, known: Option<string>, r: ActivateRequest, id: string,
                      token: string, now: Time)
    requires StoreOk(s) && Activates(s, code, known, r, id)
    ensures StoreOk(ActivatedStore(s, code, known, r, id, token, now))
  {
    ActivatedDevice(s, code, known, r, id, token, now);
    var next := ActivatedStore(s, code, known, r, id, token, now);
    assert id in next.devices;
    hide ValidRecords, TokensOpen, LimitsOk, IdentityOk, LeasesOk, RevocationOk, DevicesPaid, ReleasedOk, DigestsUnique,
         ActivatedStore, Activates, Consumes;
    ActivateValid(s, code, known, r, id, next);
    ActivateLimits(s, code, known, r, id, next);
    ActivateIdentity(s, code, known, r, id, next);
    ActivateRest(s, code, known, r, id, next, token, now);
    ActivatePaid(s, code, known, r, id, next);
  }

  lemma ActivateValid(s: Records, code: string, known: Option<string>, r: ActivateRequest, id: string, next: Records)
    requires ValidRecords(s) && Activates(s, code, known, r, id) && Consumes(s, code, r, id, next)
    requires next.devices[id].tokenDigest != NoDigest && next.devices[id].encryptedToken != Nothing
    ensures ValidRecords(next)
  {
    assert DigestsUnique(next.codes);
    hide DigestsUnique, Conflicts;
    forall c <- next.codes ensures CodeOk(next, c, next.codes[c]) {
      assert CodeOk(s, c, s.codes[c]);
    }
    forall d <- next.devices ensures DeviceOk(next, d, next.devices[d]) {
      if d != id {
        assert DeviceOk(s, d, s.devices[d]);
      }
    }
  }

  lemma ActivateLimits(s: Records, code: string, known: Option<string>, r: ActivateRequest, id: string, next: Records)
    requires LimitsOk(s) && Activates(s, code, known, r, id) && Consumes(s, code, r, id, next)
    ensures LimitsOk(next)
  {
    hide Conflicts;
    var l := s.codes[code].licenseId;
    forall m <- s.licenses ensures |ActiveDevices(next.devices, m)| <= s.licenses[m].deviceLimit {
      if m == l {
        assert ActiveDevices(next.devices, l) == ActiveDevices(s.devices, l) + {id};
        if known.Some? && s.devices[id].status == DeviceActive {
          assert ActiveDevices(s.devices, l) + {id} == ActiveDevices(s.devices, l);
        } else {
          assert |ActiveDevices(s.devices, l) + {id}| <= |ActiveDevices(s.devices, l)| + 1;
        }
      } else {
        assert ActiveDevices(next.devices, m) == ActiveDevices(s.devices, m);
      }
    }
  }

  lemma ActivateIdentity(s: Records, code: string, known: Option<string>, r: ActivateRequest, id: string, next: Records)
    requires IdentityOk(s.devices) && Activates(s, code, known, r, id) && Consumes(s, code, r, id, next)
    ensures IdentityOk(next.devices)
  {
  }

  lemma ActivateRest(s: Records, code: string, known: Option<string>, r: ActivateRequest, id: string, next: Records,
                     token: string, now: Time)
    requires TokensOpen(s.devices) && LeasesOk(s) && RevocationOk(s) && ReleasedOk(s.devices)
    requires Activates(s, code, known, r, id) && Consumes(s, code, r, id, next)
    requires next.devices[id].tokenDigest == Mac("token", token) && next.devices[id].encryptedToken == Sealed(token)
    requires next.devices[id].leaseExpiresAt == LeaseExpiry(now, s.licenses[s.codes[code].licenseId].expiresAt)
    ensures TokensOpen(next.devices) && LeasesOk(next) && RevocationOk(next) && ReleasedOk(next.devices)
  {
    hide Conflicts, ActiveDevices;
  }

  lemma ActivatePaid(s: Records, code: string, known: Option<string>, r: ActivateRequest, id: string, next: Records)
    requires DevicesPaid(s) && Activates(s, code, known, r, id) && Consumes(s, code, r, id, next)
    ensures DevicesPaid(next)
  {
    hide Conflicts, ActiveDevices;
    forall d <- next.devices ensures PaidFor(next.codes, d, next.devices[d].licenseId) {
      if d == id {
        assert next.codes[code].deviceId == id;
      } else {
        var p :| p in s.codes && s.codes[p].status == Consumed && s.codes[p].deviceId == d
              && s.codes[p].licenseId == s.devices[d].licenseId;
        assert next.codes[p] == s.codes[p];
      }
    }
  }
}
