/** The licensing store's records behind references, as its maps hold them, and the loops over them. */
module LicensingCells {
  import opened Prelude
  import opened LicensingModel
  import opened LicensingInvariant

  /** A reference to a record that is changed in place. */
  class Ref<T> {
    var v: T

    constructor (v: T)
      ensures this.v == v
    {
      this.v := v;
    }
  }

  /** The maps of references to records. */
  datatype DiskState = DiskState(
    licenses: map<string, Ref<License>>, codes: map<string, Ref<Code>>, devices: map<string, Ref<Device>>)

  ghost function Cells<T>(m: map<string, Ref<T>>): set<object> {
    set k | k in m :: m[k]
  }

  /** The records a map points to, as they are written to disk. */
  function Values<T>(m: map<string, Ref<T>>): map<string, T>
    reads set k | k in m :: m[k]
  {
    map k | k in m :: m[k].v
  }

  /** No two keys share a record. */
  ghost predicate Separate<T>(m: map<string, Ref<T>>) {
    forall a, b :: a in m && b in m && a != b ==> m[a] != m[b]
  }

  /** Copies every record of a map. */
  method CloneMap<T>(m: map<string, Ref<T>>) returns (c: map<string, Ref<T>>)
    ensures c.Keys == m.Keys && Separate(c)
    ensures forall k <- c :: fresh(c[k]) && c[k].v == m[k].v
  {
    c := map[];
    var todo := m.Keys;
    while todo != {}
      invariant todo <= m.Keys && c.Keys == m.Keys - todo
      invariant forall k <- c :: fresh(c[k]) && c[k].v == m[k].v
      invariant Separate(c)
      decreases todo
    {
      var k :| k in todo;
      var copy := new Ref(m[k].v);
      c := c[k := copy];
      todo := todo - {k};
    }
    assert c.Keys == m.Keys;
  }

  ghost function AllCells(s: DiskState): set<object> {
    Cells(s.licenses) + Cells(s.codes) + Cells(s.devices)
  }

  function Snapshot(s: DiskState): Records
    reads Cells(s.licenses), Cells(s.codes), Cells(s.devices)
  {
    Records(Values(s.licenses), Values(s.codes), Values(s.devices))
  }

  ghost predicate Unshared(s: DiskState) {
    Separate(s.licenses) && Separate(s.codes) && Separate(s.devices)
  }

  /** cloneDiskState: equal contents, and no record shared with anything. */
  method CloneDiskState(s: DiskState) returns (c: DiskState)
    ensures Snapshot(c) == Snapshot(s) && Unshared(c)
    ensures c.licenses.Keys == s.licenses.Keys && c.codes.Keys == s.codes.Keys && c.devices.Keys == s.devices.Keys
    ensures fresh(AllCells(c))
  {
    var licenses := CloneMap(s.licenses);
    var codes := CloneMap(s.codes);
    var devices := CloneMap(s.devices);
    c := DiskState(licenses, codes, devices);
  }

  method DecodeMap<T>(m: map<string, T>) returns (c: map<string, Ref<T>>)
    ensures Values(c) == m
  {
    c := map[];
    var todo := m.Keys;
    while todo != {}
      invariant todo <= m.Keys && c.Keys == m.Keys - todo
      invariant forall k <- c :: c[k].v == m[k]
      decreases todo
    {
      var k :| k in todo;
      var cell := new Ref(m[k]);
      c := c[k := cell];
      todo := todo - {k};
    }
    assert c.Keys == m.Keys;
  }

  /** References to records read from disk. */
  method Decode(v: Records) returns (s: DiskState)
    ensures Snapshot(s) == v
  {
    var licenses := DecodeMap(v.licenses);
    var codes := DecodeMap(v.codes);
    var devices := DecodeMap(v.devices);
    s := DiskState(licenses, codes, devices);
  }

  /** The snapshot depends on nothing but the records. */
  twostate lemma Untouched(s: DiskState)
    requires unchanged(AllCells(s))
    ensures Snapshot(s) == old(Snapshot(s))
  {
    assert forall k <- s.licenses :: s.licenses[k] in AllCells(s);
    assert forall k <- s.codes :: s.codes[k] in AllCells(s);
    assert forall k <- s.devices :: s.devices[k] in AllCells(s);
  }

  /** Reading through the references is reading the snapshot. */
  lemma Dereference(s: DiskState)
    ensures var v := Snapshot(s);
      && v.licenses.Keys == s.licenses.Keys && v.codes.Keys == s.codes.Keys && v.devices.Keys == s.devices.Keys
      && Values(s.codes) == v.codes && Values(s.devices) == v.devices
      && (forall k <- s.licenses :: s.licenses[k].v == v.licenses[k])
      && (forall k <- s.codes :: s.codes[k].v == v.codes[k])
      && (forall k <- s.devices :: s.devices[k].v == v.devices[k])
    ensures forall o: object <- AllCells(s) :: allocated(o)
  {
  }

  // ----- the loops over the records -----

  lemma CountedAll(devices: map<string, Ref<Device>>, licenseId: string, active: set<string>)
    requires forall d :: d in active <==>
               d in devices && devices[d].v.licenseId == licenseId && devices[d].v.status == DeviceActive
    ensures active == ActiveDevices(Values(devices), licenseId)
  {
    var values := Values(devices);
    assert values.Keys == devices.Keys;
    forall d ensures d in active <==> d in ActiveDevices(values, licenseId) {
      if d in devices {
        assert values[d] == devices[d].v;
      }
    }
  }

  /** activeDeviceCount. */
  method ActiveDeviceCount(s: DiskState, licenseId: string) returns (count: nat)
    ensures count == |ActiveDevices(Snapshot(s).devices, licenseId)|
  {
    var devices := s.devices;
    count := 0;
    var todo := devices.Keys;
    ghost var active: set<string> := {};
    while todo != {}
      invariant todo <= devices.Keys && |active| == count
      invariant forall d :: d in active <==>
                  && d in devices && d !in todo
                  && devices[d].v.licenseId == licenseId && devices[d].v.status == DeviceActive
      decreases todo
    {
      var d :| d in todo;
      if devices[d].v.licenseId == licenseId && devices[d].v.status == DeviceActive {
        count, active := count + 1, active + {d};
      }
      todo := todo - {d};
    }
    CountedAll(devices, licenseId, active);
  }

  /** findCodeByDigest: digests are unique, so it does not matter which record is met first. */
  method FindCodeByDigest(s: DiskState, digest: Digest) returns (found: Option<string>)
    ensures found.Some? ==> found.value in s.codes && s.codes[found.value].v.digest == digest
    ensures found.Some? <==> KnownDigest(Snapshot(s).codes, digest)
    ensures DigestsUnique(Snapshot(s).codes) ==> found == CodeWith(Snapshot(s).codes, digest)
  {
    var codes := s.codes;
    ghost var values := Snapshot(s).codes;
    var todo := codes.Keys;
    while todo != {}
      invariant todo <= codes.Keys
      invariant forall c <- codes :: c !in todo ==> codes[c].v.digest != digest
      decreases todo
    {
      var c :| c in todo;
      if codes[c].v.digest == digest {
        assert values[c].digest == digest;
        return Some(c);
      }
      todo := todo - {c};
    }
    assert forall c <- values :: values[c] == codes[c].v;
    return None;
  }

  /** findLicenseDevice. */
  method FindLicenseDevice(s: DiskState, licenseId: string, installationId: string, publicKey: string)
    returns (found: Option<string>)
    ensures found.Some? ==>
              found.value in s.devices && SameDevice(s.devices[found.value].v, licenseId, installationId, publicKey)
    ensures IdentityOk(Snapshot(s).devices) ==>
              found == DeviceWith(Snapshot(s).devices, licenseId, installationId, publicKey)
  {
    var devices := s.devices;
    ghost var values := Snapshot(s).devices;
    var todo := devices.Keys;
    while todo != {}
      invariant todo <= devices.Keys
      invariant forall d <- devices :: d !in todo ==> !SameDevice(devices[d].v, licenseId, installationId, publicKey)
      decreases todo
    {
      var d :| d in todo;
      if SameDevice(devices[d].v, licenseId, installationId, publicKey) {
        assert SameDevice(values[d], licenseId, installationId, publicKey);
        return Some(d);
      }
      todo := todo - {d};
    }
    assert forall d <- values :: values[d] == devices[d].v;
    return None;
  }

  /** findInstallationConflict. */
  method FindInstallationConflict(s: DiskState, installationId: string, publicKey: string) returns (conflict: bool)
    ensures conflict == Conflicts(Snapshot(s).devices, installationId, publicKey)
  {
    var devices := s.devices;
    ghost var values := Snapshot(s).devices;
    var todo := devices.Keys;
    while todo != {}
      invariant todo <= devices.Keys
      invariant forall d <- devices :: d !in todo ==>
                  !(devices[d].v.installationId == installationId && devices[d].v.publicKey != publicKey)
      decreases todo
    {
      var d :| d in todo;
      if devices[d].v.installationId == installationId && devices[d].v.publicKey != publicKey {
        assert values[d] == devices[d].v;
        return true;
      }
      todo := todo - {d};
    }
    assert forall d <- values :: values[d] == devices[d].v;
    return false;
  }

  /** The loop of UpdateLicense: every active device of the license gets a lease under the new expiry. */
  method RenewLeases(s: DiskState, licenseId: string, now: Time, expiresAt: Option<Time>)
    requires Separate(s.devices)
    modifies Cells(s.devices)
    ensures Snapshot(s) == old(Snapshot(s)).(devices := map d | d in s.devices ::
                             Renewed(old(Snapshot(s)).devices[d], licenseId, now, expiresAt))
  {
    var devices := s.devices;
    var todo := devices.Keys;
    while todo != {}
      invariant todo <= devices.Keys
      invariant forall d <- devices :: devices[d].v ==
                  if d in todo then old(devices[d].v) else Renewed(old(devices[d].v), licenseId, now, expiresAt)
      decreases todo
    {
      var d :| d in todo;
      var device := devices[d];
      if device.v.licenseId == licenseId && device.v.status == DeviceActive {
        device.v := device.v.(leaseExpiresAt := LeaseExpiry(now, expiresAt));
      }
      todo := todo - {d};
    }
  }

  /** The loop of RevokeLicense. */
  method RevokeDevices(s: DiskState, licenseId: string, now: Time)
    requires Separate(s.devices)
    modifies Cells(s.devices)
    ensures Snapshot(s) == old(Snapshot(s)).(devices := map d | d in s.devices ::
                             RevokedDevice(old(Snapshot(s)).devices[d], licenseId, now))
  {
    var devices := s.devices;
    var todo := devices.Keys;
    while todo != {}
      invariant todo <= devices.Keys
      invariant forall d <- devices :: devices[d].v ==
                  if d in todo then old(devices[d].v) else RevokedDevice(old(devices[d].v), licenseId, now)
      decreases todo
    {
      var d :| d in todo;
      var device := devices[d];
      if device.v.licenseId == licenseId && device.v.status == DeviceActive {
        device.v := device.v.(status := DeviceRevoked, revokedAt := Some(now));
      }
      todo := todo - {d};
    }
  }

  // ----- writing through one reference -----

  method SetLicense(s: DiskState, id: string, license: License)
    requires Separate(s.licenses) && id in s.licenses
    modifies s.licenses[id]
    ensures Snapshot(s) == old(Snapshot(s)).(licenses := old(Snapshot(s)).licenses[id := license])
  {
    s.licenses[id].v := license;
  }

  method SetCode(s: DiskState, id: string, code: Code)
    requires Separate(s.codes) && id in s.codes
    modifies s.codes[id]
    ensures Snapshot(s) == old(Snapshot(s)).(codes := old(Snapshot(s)).codes[id := code])
  {
    s.codes[id].v := code;
  }

  method SetDevice(s: DiskState, id: string, device: Device)
    requires Separate(s.devices) && id in s.devices
    modifies s.devices[id]
    ensures Snapshot(s) == old(Snapshot(s)).(devices := old(Snapshot(s)).devices[id := device])
  {
    s.devices[id].v := device;
  }

  /** A reference to a new record. */
  method AddLicense(s: DiskState, id: string, license: License) returns (next: DiskState)
    ensures Snapshot(next) == old(Snapshot(s)).(licenses := old(Snapshot(s)).licenses[id := license])
  {
    var cell := new Ref(license);
    next := s.(licenses := s.licenses[id := cell]);
  }

  method AddDevice(s: DiskState, id: string, device: Device) returns (next: DiskState)
    requires Separate(s.devices) && id !in s.devices
    ensures Snapshot(next) == old(Snapshot(s)).(devices := old(Snapshot(s)).devices[id := device])
    ensures next.licenses == s.licenses && next.codes == s.codes && Separate(next.devices)
    ensures next.devices.Keys == s.devices.Keys + {id} && fresh(next.devices[id])
    ensures forall d <- s.devices :: next.devices[d] == s.devices[d]
  {
    var cell := new Ref(device);
    next := s.(devices := s.devices[id := cell]);
  }

  // ----- the changes an operation makes to its clone -----

  /** issueCodeInState: up to eight attempts, each with its own random code. */
  method IssueCodeInState(s: DiskState, licenseId: string, now: Time, draws: Draws)
    returns (r: Result<Issued, Error>, next: DiskState)
    ensures var p := IssueCodeIn(old(Snapshot(s)), licenseId, now, draws, 0);
      && (p.Refuse? ==> r == Err(p.error))
      && (!p.Refuse? ==> p.Change? && r == Ok(p.response) && Snapshot(next) == p.next)
  {
    next := s;
    ghost var before := Snapshot(s);
    var attempts := 0;
    while attempts < ISSUE_ATTEMPTS
      invariant 0 <= attempts <= ISSUE_ATTEMPTS
      invariant Snapshot(s) == before
      invariant IssueCodeIn(before, licenseId, now, draws, 0) == IssueCodeIn(before, licenseId, now, draws, attempts)
    {
      if draws[attempts].plain.None? {
        return Err(RandomFailed), s;
      }
      var plain := draws[attempts].plain.value;
      var taken := FindCodeByDigest(s, Mac("code", plain));
      if taken.None? {
        if draws[attempts].id.None? {
          return Err(RandomFailed), s;
        }
        var id := draws[attempts].id.value;
        var code := new Ref(Code(id, licenseId, Mac("code", plain), Available, now, None, ""));
        return Ok(Issued(licenseId, plain)), s.(codes := s.codes[id := code]);
      }
      attempts := attempts + 1;
    }
    return Err(NoUniqueCode), s;
  }

  method UpdateRecords(s: DiskState, id: string, request: UpdateRequest, now: Time)
    requires Unshared(s) && id in s.licenses
    modifies AllCells(s)
    ensures Snapshot(s) == UpdateIn(old(Snapshot(s)), id, request, now)
  {
    hide Snapshot, Values;
    Dereference(s);
    var license := s.licenses[id].v;
    SetLicense(s, id, license.(expiresAt := request.expiresAt, deviceLimit := request.deviceLimit, updatedAt := now));
    RenewLeases(s, id, now, request.expiresAt);
  }

  method HeartbeatRecords(s: DiskState, id: string, now: Time) returns (grant: Grant)
    requires Unshared(s) && id in s.devices && s.devices[id].v.licenseId in s.licenses
    modifies AllCells(s)
    ensures Snapshot(s) == HeartbeatIn(old(Snapshot(s)), id, now)
    ensures grant == MakeGrant(Snapshot(s).devices[id], "",
                               Snapshot(s).licenses[old(Snapshot(s)).devices[id].licenseId], now)
  {
    hide Snapshot, Values;
    Dereference(s);
    var device, license := s.devices[id].v, s.licenses[s.devices[id].v.licenseId].v;
    device := device.(lastHeartbeatAt := Some(now), leaseExpiresAt := LeaseExpiry(now, license.expiresAt));
    license := license.(updatedAt := now);
    SetDevice(s, id, device);
    SetLicense(s, device.licenseId, license);
    grant := MakeGrant(device, "", license, now);
  }

  method RevokeRecords(s: DiskState, id: string, now: Time)
    requires Unshared(s) && id in s.licenses
    modifies AllCells(s)
    ensures Snapshot(s) == RevokeIn(old(Snapshot(s)), id, now)
  {
    hide Snapshot, Values;
    Dereference(s);
    var license := s.licenses[id].v;
    SetLicense(s, id, license.(status := Revoked, revokedAt := Some(now), updatedAt := now));
    RevokeDevices(s, id, now);
  }

  method ReleaseRecords(s: DiskState, id: string, now: Time)
    requires Unshared(s) && id in s.devices
    modifies AllCells(s)
    ensures Snapshot(s) == ReleaseIn(old(Snapshot(s)), id, now)
  {
    hide Snapshot, Values;
    Dereference(s);
    var device := s.devices[id].v;
    if device.licenseId in s.licenses {
      var license := s.licenses[device.licenseId].v;
      SetLicense(s, device.licenseId, license.(updatedAt := now));
    }
    SetDevice(s, id, device.(status := DeviceReleased, tokenDigest := NoDigest, encryptedToken := Nothing,
                             releasedAt := Some(now)));
  }

  /** The device that may take a code, and whether its license has no room for it. */
  method ChooseDevice(s: DiskState, licenseId: string, r: ActivateRequest, limit: int)
    returns (full: bool, known: Option<string>)
    requires IdentityOk(Snapshot(s).devices)
    ensures Snapshot(s) == old(Snapshot(s))
    ensures known == DeviceWith(Snapshot(s).devices, licenseId, r.installationId, r.publicKey)
    ensures known.Some? ==> known.value in s.devices
    ensures full == ((known.None? || Snapshot(s).devices[known.value].status != DeviceActive)
                     && |ActiveDevices(Snapshot(s).devices, licenseId)| >= limit)
  {
    hide IdentityOk, SameDevice, ActiveDevices, DeviceWith;
    full := false;
    known := FindLicenseDevice(s, licenseId, r.installationId, r.publicKey);
    if known.None? || s.devices[known.value].v.status != DeviceActive {
      var active := ActiveDeviceCount(s, licenseId);
      full := active >= limit;
    }
  }

  /** A new or known device gets a token and a lease. */
  method PlaceDevice(s: DiskState, known: Option<string>, id: string, licenseId: string, r: ActivateRequest,
                     token: string, now: Time, lease: Time)
    returns (next: DiskState, device: Device)
    requires Separate(s.devices)
    requires known.Some? ==> known.value == id && id in s.devices
    requires known.None? ==> id !in s.devices
    modifies Cells(s.devices)
    ensures device == Activated(if known.Some? then Some(old(Snapshot(s)).devices[id]) else None, id, licenseId, r,
                                token, now, lease)
    ensures Snapshot(next) == old(Snapshot(s)).(devices := old(Snapshot(s)).devices[id := device])
    ensures next.licenses == s.licenses && next.codes == s.codes
  {
    hide Snapshot, Values;
    Dereference(s);
    next := s;
    if known.None? {
      next := AddDevice(s, id, Device(id, licenseId, r.installationId, r.publicKey, "", NoDigest, Nothing, DeviceActive,
                                      now, None, 0, None, None));
    }
    Dereference(next);
    device := next.devices[id].v.(deviceLabel := r.deviceLabel, tokenDigest := Mac("token", token),
                                  encryptedToken := Sealed(token), status := DeviceActive, leaseExpiresAt := lease,
                                  releasedAt := None, revokedAt := None);
    SetDevice(next, id, device);
  }

  /** The last part of Activate: the device is placed, the code is consumed. */
  method ActivateRecords(s: DiskState, code: string, known: Option<string>, id: string, r: ActivateRequest,
                         token: string, now: Time)
    returns (next: DiskState, grant: Grant)
    requires Unshared(s) && code in s.codes && s.codes[code].v.licenseId in s.licenses
    requires known.Some? ==> known.value == id && id in s.devices && s.devices[id].v.id == id
    requires known.None? ==> id !in s.devices
    modifies AllCells(s)
    ensures var before := old(Snapshot(s));
      var l := before.codes[code].licenseId;
      var device := Activated(if known.Some? then Some(before.devices[id]) else None, id, l, r, token, now,
                              LeaseExpiry(now, before.licenses[l].expiresAt));
      && Snapshot(next) == ActivateIn(before, code, device, now)
      && grant == MakeGrant(device, token, before.licenses[l].(updatedAt := now), now)
  {
    hide Snapshot, Values;
    Dereference(s);
    var c := s.codes[code].v;
    var license := s.licenses[c.licenseId].v;
    var device;
    next, device := PlaceDevice(s, known, id, c.licenseId, r, token, now, LeaseExpiry(now, license.expiresAt));
    SetCode(next, code, c.(status := Consumed, deviceId := device.id, consumedAt := Some(now)));
    SetLicense(next, c.licenseId, license.(updatedAt := now));
    grant := MakeGrant(device, token, license.(updatedAt := now), now);
  }

  /** Activate from the clone on, without the commit. */
  method BindDevice(s: DiskState, code: string, r: ActivateRequest, now: Time, token: Option<string>, sealing: bool,
                    newId: Option<string>)
    returns (result: Result<Grant, Error>, next: DiskState)
    requires Unshared(s) && ValidRecords(Snapshot(s)) && IdentityOk(Snapshot(s).devices)
    requires newId.Some? ==> newId.value !in s.devices
    requires code in s.codes && s.codes[code].v.licenseId in s.licenses
    modifies AllCells(s)
    ensures var p := PlanBinding(old(Snapshot(s)), code, r, now, token, sealing, newId);
      && (p.Refuse? ==> result == Err(p.error))
      && (!p.Refuse? ==> p.Change? && result == Ok(p.response) && Snapshot(next) == p.next)
  {
    hide ActivateIn, Activated, MakeGrant, Snapshot, Values, AllCells, ActiveDevices, DeviceWith,
         DigestsUnique, IdentityOk, CodeOk, SameDevice;
    next := s;
    Dereference(s);
    var l := s.codes[code].v.licenseId;
    var full, known := ChooseDevice(s, l, r, s.licenses[l].v.deviceLimit);
    Dereference(s);
    if full {
      return Err(DeviceLimitReached), s;
    }
    if token.None? || !sealing || (known.None? && newId.None?) {
      return Err(RandomFailed), s;
    }
    var id := if known.Some? then known.value else newId.value;
    var grant;
    next, grant := ActivateRecords(s, code, known, id, r, token.value, now);
    result := Ok(grant);
  }
}
