/** The licensing store's records and what each operation does to them, before anything is written. */
module LicensingModel {
  import opened Prelude
  import opened Text

  /** Nanoseconds since Go's zero time. */
  type Time = nat

  const LEASE_DURATION: nat := 24 * 60 * 60 * 1_000_000_000
  const ISSUE_ATTEMPTS := 8

  /** HMAC digests, kept as what they are computed from: no two inputs share one. */
  datatype Digest = NoDigest | Mac(kind: string, secret: string)

  /** Authenticated encryption that opens to what was sealed. */
  datatype Sealed = Nothing | Sealed(token: string)

  datatype LicenseStatus = Valid | Revoked
  datatype CodeStatus = Available | Consumed
  datatype DeviceStatus = DeviceActive | DeviceReleased | DeviceRevoked

  datatype License = License(
    id: string, customer: string, status: LicenseStatus, expiresAt: Option<Time>, deviceLimit: int,
    createdAt: Time, updatedAt: Time, revokedAt: Option<Time>)

  datatype Code = Code(
    id: string, licenseId: string, digest: Digest, status: CodeStatus, createdAt: Time,
    consumedAt: Option<Time>, deviceId: string)

  datatype Device = Device(
    id: string, licenseId: string, installationId: string, publicKey: string, deviceLabel: string,
    tokenDigest: Digest, encryptedToken: Sealed, status: DeviceStatus, activatedAt: Time,
    lastHeartbeatAt: Option<Time>, leaseExpiresAt: Time, releasedAt: Option<Time>, revokedAt: Option<Time>)

  datatype Records = Records(
    licenses: map<string, License>, codes: map<string, Code>, devices: map<string, Device>)

  const EMPTY := Records(map[], map[], map[])

  datatype Error =
    | InvalidInput | LicenseNotFound | LicenseIsRevoked | LicenseIsExpired
    | CodeInvalid | CodeUsed | DeviceLimitReached | InstallationConflict
    | DeviceNotFound | DeviceIsReleased | DeviceIsRevoked | TokenInvalid | LeaseExpired
    | RandomFailed | NoUniqueCode | NotStored

  /** What an operation intends: to refuse, to answer without a change, or to store `next`. */
  datatype Plan<+R> = Refuse(error: Error) | Answer(response: R) | Change(next: Records, response: R)

  /** What activation and heartbeat replies say about the license and the lease. */
  datatype Grant = Grant(
    deviceId: string, token: string, licenseId: string, status: LicenseStatus, expired: bool,
    expiresAt: Option<Time>, leaseExpiresAt: Time)

  // ----- reading -----

  function LeaseExpiry(now: Time, licenseExpiry: Option<Time>): (lease: Time)
    ensures lease <= now + LEASE_DURATION
    ensures licenseExpiry.Some? ==> lease <= licenseExpiry.value
    ensures lease == now + LEASE_DURATION || Some(lease) == licenseExpiry
  {
    var expires := now + LEASE_DURATION;
    if licenseExpiry.Some? && expires > licenseExpiry.value then licenseExpiry.value else expires
  }

  predicate HasExpired(l: License, now: Time) {
    l.expiresAt.Some? && now >= l.expiresAt.value
  }

  function Usable(l: License, now: Time): Option<Error> {
    if l.status == Revoked then Some(LicenseIsRevoked)
    else if HasExpired(l, now) then Some(LicenseIsExpired)
    else None
  }

  function ActiveDevices(devices: map<string, Device>, licenseId: string): set<string> {
    set d | d in devices && devices[d].licenseId == licenseId && devices[d].status == DeviceActive
  }

  predicate KnownDigest(codes: map<string, Code>, digest: Digest) {
    exists c :: c in codes && codes[c].digest == digest
  }

  /** The code with a digest; digests are unique in every reachable state. */
  ghost function CodeWith(codes: map<string, Code>, digest: Digest): Option<string> {
    if c :| c in codes && codes[c].digest == digest then Some(c) else None
  }

  predicate SameDevice(d: Device, licenseId: string, installationId: string, publicKey: string) {
    d.licenseId == licenseId && d.installationId == installationId && d.publicKey == publicKey
  }

  /** The device of a license with an identity; there is at most one in every reachable state. */
  ghost function DeviceWith(devices: map<string, Device>, licenseId: string, installationId: string, publicKey: string)
    : Option<string>
  {
    if d :| d in devices && SameDevice(devices[d], licenseId, installationId, publicKey) then Some(d) else None
  }

  predicate Conflicts(devices: map<string, Device>, installationId: string, publicKey: string) {
    exists d :: d in devices && devices[d].installationId == installationId && devices[d].publicKey != publicKey
  }

  function MakeGrant(d: Device, token: string, l: License, now: Time): Grant {
    Grant(d.id, token, l.id, l.status, HasExpired(l, now), l.expiresAt, d.leaseExpiresAt)
  }

  // ----- codes -----

  /** One attempt of the code generator; a part is missing when the random source fails. */
  datatype Draw = Draw(plain: Option<string>, id: Option<string>)

  type Draws = d: seq<Draw> | |d| == ISSUE_ATTEMPTS
    witness seq(8, (i: nat) => Draw(None, None))

  datatype Issued = Issued(licenseId: string, plain: string)

  /** issueCodeInState from attempt `i` on: a taken digest costs an attempt, a random failure ends it. */
  function IssueCodeIn(s: Records, licenseId: string, now: Time, draws: Draws, i: nat): Plan<Issued>
    requires i <= ISSUE_ATTEMPTS
    decreases ISSUE_ATTEMPTS - i
  {
    if i == ISSUE_ATTEMPTS then Refuse(NoUniqueCode)
    else if draws[i].plain.None? then Refuse(RandomFailed)
    else
      var digest := Mac("code", draws[i].plain.value);
      if KnownDigest(s.codes, digest) then IssueCodeIn(s, licenseId, now, draws, i + 1)
      else if draws[i].id.None? then Refuse(RandomFailed)
      else
        var id := draws[i].id.value;
        Change(s.(codes := s.codes[id := Code(id, licenseId, digest, Available, now, None, "")]),
               Issued(licenseId, draws[i].plain.value))
  }

  // ----- operations -----

  datatype CreateRequest = CreateRequest(customer: string, expiresAt: Option<Time>, deviceLimit: int)

  predicate LimitOk(limit: int) {
    1 <= limit <= 10000
  }

  predicate ExpiryOk(expiresAt: Option<Time>, now: Time) {
    expiresAt.Some? ==> expiresAt.value > now
  }

  function NewLicense(id: string, request: CreateRequest, now: Time): License {
    License(id, TrimSpace(request.customer), Valid, request.expiresAt, request.deviceLimit, now, now, None)
  }

  function PlanCreate(s: Records, request: CreateRequest, now: Time, id: Option<string>, draws: Draws): Plan<Issued> {
    var customer := TrimSpace(request.customer);
    if customer == "" || ByteLength(customer) > 256 then Refuse(InvalidInput)
    else if !LimitOk(request.deviceLimit) || !ExpiryOk(request.expiresAt, now) then Refuse(InvalidInput)
    else if id.None? then Refuse(RandomFailed)
    else
      IssueCodeIn(s.(licenses := s.licenses[id.value := NewLicense(id.value, request, now)]), id.value, now, draws, 0)
  }

  datatype UpdateRequest = UpdateRequest(expiresAt: Option<Time>, deviceLimit: int)

  /** Active devices of the license get a lease under the new expiry. */
  function Renewed(d: Device, licenseId: string, now: Time, expiresAt: Option<Time>): Device {
    if d.licenseId == licenseId && d.status == DeviceActive
    then d.(leaseExpiresAt := LeaseExpiry(now, expiresAt)) else d
  }

  function UpdateIn(s: Records, id: string, request: UpdateRequest, now: Time): Records
    requires id in s.licenses
  {
    s.(licenses := s.licenses[id := s.licenses[id].(
         expiresAt := request.expiresAt, deviceLimit := request.deviceLimit, updatedAt := now)],
       devices := map d | d in s.devices :: Renewed(s.devices[d], id, now, request.expiresAt))
  }

  function PlanUpdate(s: Records, licenseId: string, request: UpdateRequest, now: Time): Plan<string> {
    var id := TrimSpace(licenseId);
    if id !in s.licenses then Refuse(LicenseNotFound)
    else if s.licenses[id].status == Revoked then Refuse(LicenseIsRevoked)
    else if !LimitOk(request.deviceLimit) then Refuse(InvalidInput)
    else if request.deviceLimit < |ActiveDevices(s.devices, id)| then Refuse(InvalidInput)
    else if !ExpiryOk(request.expiresAt, now) then Refuse(InvalidInput)
    else Change(UpdateIn(s, id, request, now), id)
  }

  function PlanIssue(s: Records, licenseId: string, now: Time, draws: Draws): Plan<Issued> {
    var id := TrimSpace(licenseId);
    if id !in s.licenses then Refuse(LicenseNotFound)
    else if Usable(s.licenses[id], now).Some? then Refuse(Usable(s.licenses[id], now).value)
    else IssueCodeIn(s, id, now, draws, 0)
  }

  datatype ActivateRequest = ActivateRequest(
    code: string, installationId: string, publicKey: string, deviceLabel: string)

  /** `upper` is Unicode upper-casing. */
  function Normalize(request: ActivateRequest, upper: string -> string): ActivateRequest {
    ActivateRequest(upper(TrimSpace(request.code)), TrimSpace(request.installationId),
                    TrimSpace(request.publicKey), TrimSpace(request.deviceLabel))
  }

  predicate Acceptable(r: ActivateRequest) {
    && r.code != "" && r.installationId != "" && r.publicKey != ""
    && ByteLength(r.installationId) <= 256 && ByteLength(r.publicKey) <= 4096 && ByteLength(r.deviceLabel) <= 256
  }

  /** The device record after an activation: a new one, or the known one with a new token and lease. */
  function Activated(known: Option<Device>, id: string, licenseId: string, r: ActivateRequest, token: string,
                     now: Time, lease: Time): Device
  {
    var base := if known.Some? then known.value
                else Device(id, licenseId, r.installationId, r.publicKey, "", NoDigest, Nothing, DeviceActive, now,
                            None, 0, None, None);
    base.(deviceLabel := r.deviceLabel, tokenDigest := Mac("token", token), encryptedToken := Sealed(token),
          status := DeviceActive, leaseExpiresAt := lease, releasedAt := None, revokedAt := None)
  }

  function ActivateIn(s: Records, code: string, device: Device, now: Time): Records
    requires code in s.codes && s.codes[code].licenseId in s.licenses
  {
    var l := s.codes[code].licenseId;
    s.(licenses := s.licenses[l := s.licenses[l].(updatedAt := now)],
       codes := s.codes[code := s.codes[code].(status := Consumed, deviceId := device.id, consumedAt := Some(now))],
       devices := s.devices[device.id := device])
  }

  /** The first half of Activate: the code that may be used, or why there is none. */
  ghost function UsableCode(s: Records, r: ActivateRequest, now: Time): Result<string, Error> {
    var code := CodeWith(s.codes, Mac("code", r.code));
    if !Acceptable(r) then Err(InvalidInput)
    else if code.None? then Err(CodeInvalid)
    else
      var l := s.codes[code.value].licenseId;
      if l !in s.licenses then Err(LicenseNotFound)
      else if Usable(s.licenses[l], now).Some? then Err(Usable(s.licenses[l], now).value)
      else if Conflicts(s.devices, r.installationId, r.publicKey) then Err(InstallationConflict)
      else if s.codes[code.value].status == Consumed then Err(CodeUsed)
      else Ok(code.value)
  }

  /** The second half: a new or known device takes the code. */
  ghost function PlanBinding(s: Records, code: string, r: ActivateRequest, now: Time,
                             token: Option<string>, sealing: bool, newId: Option<string>): Plan<Grant>
    requires code in s.codes && s.codes[code].licenseId in s.licenses
  {
    var l := s.codes[code].licenseId;
    var known := DeviceWith(s.devices, l, r.installationId, r.publicKey);
    if (known.None? || s.devices[known.value].status != DeviceActive)
       && |ActiveDevices(s.devices, l)| >= s.licenses[l].deviceLimit
    then Refuse(DeviceLimitReached)
    else if token.None? || !sealing || (known.None? && newId.None?) then Refuse(RandomFailed)
    else
      var id := if known.Some? then known.value else newId.value;
      var device := Activated(if known.Some? then Some(s.devices[known.value]) else None, id, l, r, token.value,
                              now, LeaseExpiry(now, s.licenses[l].expiresAt));
      Change(ActivateIn(s, code, device, now),
             MakeGrant(device, token.value, s.licenses[l].(updatedAt := now), now))
  }

  ghost function PlanActivate(s: Records, request: ActivateRequest, upper: string -> string, now: Time,
                              token: Option<string>, sealing: bool, newId: Option<string>): Plan<Grant>
  {
    var r := Normalize(request, upper);
    match UsableCode(s, r, now)
    case Err(e) => Refuse(e)
    case Ok(code) => PlanBinding(s, code, r, now, token, sealing, newId)
  }

  /** validateDeviceCredentialLocked; `token` is missing when the header could not be parsed. */
  function CheckCredential(s: Records, deviceId: string, token: Option<string>, now: Time): Option<Error> {
    var id := TrimSpace(deviceId);
    if token.None? || id == "" then Some(TokenInvalid)
    else if id !in s.devices then Some(DeviceNotFound)
    else if s.devices[id].tokenDigest != Mac("token", token.value) then Some(TokenInvalid)
    else if s.devices[id].licenseId !in s.licenses then Some(LicenseNotFound)
    else if Usable(s.licenses[s.devices[id].licenseId], now).Some? then
      Some(Usable(s.licenses[s.devices[id].licenseId], now).value)
    else match s.devices[id].status
      case DeviceReleased => Some(DeviceIsReleased)
      case DeviceRevoked => Some(DeviceIsRevoked)
      case DeviceActive => None
  }

  /** AuthorizeDevice. */
  function Authorize(s: Records, deviceId: string, token: Option<string>, now: Time): Result<Grant, Error> {
    var id := TrimSpace(deviceId);
    var refusal := CheckCredential(s, deviceId, token, now);
    if refusal.Some? then Err(refusal.value)
    else if s.devices[id].leaseExpiresAt == 0 || now >= s.devices[id].leaseExpiresAt then Err(LeaseExpired)
    else Ok(MakeGrant(s.devices[id], "", s.licenses[s.devices[id].licenseId], now))
  }

  function HeartbeatIn(s: Records, id: string, now: Time): Records
    requires id in s.devices && s.devices[id].licenseId in s.licenses
  {
    var l := s.devices[id].licenseId;
    s.(licenses := s.licenses[l := s.licenses[l].(updatedAt := now)],
       devices := s.devices[id := s.devices[id].(
         lastHeartbeatAt := Some(now), leaseExpiresAt := LeaseExpiry(now, s.licenses[l].expiresAt))])
  }

  function PlanHeartbeat(s: Records, deviceId: string, token: Option<string>, now: Time): Plan<Grant> {
    var id := TrimSpace(deviceId);
    var refusal := CheckCredential(s, deviceId, token, now);
    if refusal.Some? then Refuse(refusal.value)
    else
      var next := HeartbeatIn(s, id, now);
      Change(next, MakeGrant(next.devices[id], "", next.licenses[s.devices[id].licenseId], now))
  }

  function RevokedDevice(d: Device, licenseId: string, now: Time): Device {
    if d.licenseId == licenseId && d.status == DeviceActive
    then d.(status := DeviceRevoked, revokedAt := Some(now)) else d
  }

  function RevokeIn(s: Records, id: string, now: Time): Records
    requires id in s.licenses
  {
    s.(licenses := s.licenses[id := s.licenses[id].(status := Revoked, revokedAt := Some(now), updatedAt := now)],
       devices := map d | d in s.devices :: RevokedDevice(s.devices[d], id, now))
  }

  function PlanRevoke(s: Records, licenseId: string, now: Time): Plan<string> {
    var id := TrimSpace(licenseId);
    if id !in s.licenses then Refuse(LicenseNotFound)
    else if s.licenses[id].status == Revoked then Answer(id)
    else Change(RevokeIn(s, id, now), id)
  }

  function ReleaseIn(s: Records, id: string, now: Time): Records
    requires id in s.devices
  {
    var l := s.devices[id].licenseId;
    s.(licenses := if l in s.licenses then s.licenses[l := s.licenses[l].(updatedAt := now)] else s.licenses,
       devices := s.devices[id := s.devices[id].(
         status := DeviceReleased, tokenDigest := NoDigest, encryptedToken := Nothing, releasedAt := Some(now))])
  }

  function PlanRelease(s: Records, deviceId: string, now: Time): Plan<string> {
    var id := TrimSpace(deviceId);
    if id !in s.devices then Refuse(DeviceNotFound)
    else if s.devices[id].status == DeviceReleased then Answer(id)
    else Change(ReleaseIn(s, id, now), id)
  }
}
