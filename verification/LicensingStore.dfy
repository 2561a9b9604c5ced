/** The licensing store object. An operation clones every record, changes the clone in place, writes it
    to disk, and only then replaces the state. */
module LicensingStore {
  import opened Prelude
  import opened Text
  import opened LicensingModel
  import opened LicensingInvariant
  import opened LicensingDisk
  import opened LicensingCells
  import opened LicensingRuns
  import opened LicensingEffects

  /** What happens to a write: whether the temporary file is complete, and the renames that follow. */
  datatype Write = Write(written: bool, fates: Fates)

  predicate WriteFails(d: Disk<Records>, w: Write) {
    !w.written || Fails(d, w.fates)
  }

  function Written(d: Disk<Records>, next: Records, w: Write): Disk<Records> {
    if w.written then Final(d, next, w.fates) else d
  }

  /** An operation does what its plan says: a refusal, an answer and a failed write leave the records as
      they were; a write that succeeds leaves exactly the planned ones. */
  ghost predicate Does<R>(p: Plan<R>, w: Write, s: Records, d: Disk<Records>,
                          r: Result<R, Error>, s': Records, d': Disk<Records>)
  {
    match p
    case Refuse(e) => r == Err(e) && s' == s && d' == d
    case Answer(x) => r == Ok(x) && s' == s && d' == d
    case Change(next, x) =>
      && d' == Written(d, next, w)
      && if WriteFails(d, w) then r == Err(NotStored) && s' == s else r == Ok(x) && s' == next
  }

  /** Memory holds what a crash would bring back. */
  ghost predicate Agree(s: Records, d: Disk<Records>) {
    Sound(d) && Recovered(d, EMPTY) == s
  }

  /** Whatever an operation does, memory and disk still agree, unless the rollback rename failed. */
  lemma DoesKeepsAgreement<R>(p: Plan<R>, w: Write, s: Records, d: Disk<Records>,
                              r: Result<R, Error>, s': Records, d': Disk<Records>)
    requires Does(p, w, s, d, r, s', d') && Agree(s, d)
    requires WriteFails(d, w) ==> w.fates.rollBack
    ensures Agree(s', d')
  {
    if p.Change? {
      ReplaceIsAtomic(d, p.next, EMPTY, w.fates);
    }
  }

  /** What an operation does is a call of the run model, so every invariant of runs holds of the object. */
  lemma DoesIsCall(e: Event, upper: string -> string, w: Write, s: Records, d: Disk<Records>,
                   r: Result<Reply, Error>, s': Records, d': Disk<Records>)
    requires Does(PlanOf(s, e, upper), w, s, d, r, s', d') && StoreOk(s) && FreshIds(s, e)
    ensures s' == After(s, Call(e, !WriteFails(d, w)), upper) && StoreOk(s')
    ensures r.Ok? <==> Succeeds(s, Call(e, !WriteFails(d, w)), upper)
    ensures r.Err? ==> s' == s
  {
    hide StoreOk, PlanOf, FreshIds, WriteFails, Written;
    if PlanOf(s, e, upper).Change? {
      PlanKeeps(s, e, upper);
    }
  }

  /** Each method answers with its own kind of reply; wrapping the reply wraps what the method does. */
  lemma DoesWraps<R>(p: Plan<R>, f: R -> Reply, w: Write, s: Records, d: Disk<Records>,
                     r: Result<R, Error>, s': Records, d': Disk<Records>)
    requires Does(p, w, s, d, r, s', d')
    ensures Does(Wrap(p, f), w, s, d, if r.Ok? then Ok(f(r.value)) else Err(r.error), s', d')
  {
    hide Written, WriteFails;
  }

  // ----- the checks made on loading -----

  /** validateDiskState. */
  method ValidateDiskState(s: Records) returns (ok: bool)
    ensures ok <==> ValidRecords(s)
  {
    hide CodeOk, DeviceOk, LicenseOk;
    var licenses := s.licenses.Keys;
    while licenses != {}
      invariant licenses <= s.licenses.Keys
      invariant forall id <- s.licenses :: id !in licenses ==> LicenseOk(id, s.licenses[id])
      decreases licenses
    {
      var id :| id in licenses;
      if !LicenseOk(id, s.licenses[id]) {
        return false;
      }
      licenses := licenses - {id};
    }
    ok := ValidateCodes(s);
    if !ok {
      return;
    }
    var devices := s.devices.Keys;
    while devices != {}
      invariant devices <= s.devices.Keys
      invariant forall id <- s.devices :: id !in devices ==> DeviceOk(s, id, s.devices[id])
      decreases devices
    {
      var id :| id in devices;
      if !DeviceOk(s, id, s.devices[id]) {
        return false;
      }
      devices := devices - {id};
    }
  }

  /** Its second loop, which also looks for repeated digests. */
  method ValidateCodes(s: Records) returns (ok: bool)
    ensures ok <==> (forall id <- s.codes :: CodeOk(s, id, s.codes[id])) && DigestsUnique(s.codes)
  {
    hide CodeOk;
    var digests: set<Digest> := {};
    var codes := s.codes.Keys;
    while codes != {}
      invariant codes <= s.codes.Keys
      invariant forall id <- s.codes :: id !in codes ==> CodeOk(s, id, s.codes[id]) && s.codes[id].digest in digests
      invariant forall x <- digests :: exists id :: id in s.codes && id !in codes && s.codes[id].digest == x
      invariant forall a, b :: a in s.codes && b in s.codes && a !in codes && b !in codes && a != b ==>
                  s.codes[a].digest != s.codes[b].digest
      decreases codes
    {
      var id :| id in codes;
      if !CodeOk(s, id, s.codes[id]) || s.codes[id].digest in digests {
        return false;
      }
      digests := digests + {s.codes[id].digest};
      codes := codes - {id};
    }
    return true;
  }

  /** The loop of load over the active devices. */
  method RecoverTokens(devices: map<string, Device>) returns (ok: bool)
    ensures ok <==> TokensOpen(devices)
  {
    var todo := devices.Keys;
    while todo != {}
      invariant todo <= devices.Keys
      invariant forall id <- devices :: id !in todo ==> TokenOpens(devices[id])
      decreases todo
    {
      var id :| id in todo;
      if !TokenOpens(devices[id]) {
        return false;
      }
      todo := todo - {id};
    }
    return true;
  }

  lemma ValidCodes(s: Records)
    requires ValidRecords(s)
    ensures DigestsUnique(s.codes)
  {
  }

  lemma ActivationSplits(s: Records, request: ActivateRequest, upper: string -> string, now: Time,
                         token: Option<string>, sealing: bool, newId: Option<string>)
    ensures var r := Normalize(request, upper);
      var code, plan := UsableCode(s, r, now), PlanActivate(s, request, upper, now, token, sealing, newId);
      && (code.Err? ==> plan == Refuse(code.error))
      && (code.Ok? ==>
            && code.value in s.codes && s.codes[code.value].licenseId in s.licenses
            && plan == PlanBinding(s, code.value, r, now, token, sealing, newId))
  {
    hide PlanBinding, Normalize, Conflicts, Acceptable;
  }

  /** When an activation succeeds and what it leaves; `c` is the code it redeems. */
  lemma ActivationEffect(s: Records, request: ActivateRequest, upper: string -> string, now: Time,
                         token: Option<string>, sealing: bool, newId: Option<string>)
    returns (c: string)
    requires ValidRecords(s) && IdentityOk(s.devices) && (newId.Some? ==> newId.value !in s.devices)
    ensures var p := PlanActivate(s, request, upper, now, token, sealing, newId);
      && (p.Change? <==> CanActivate(s, request, upper, now, token, sealing, newId)) && !p.Answer?
      && (p.Change? ==>
            && Redeemable(s, c, upper(TrimSpace(request.code)), now) && token.Some?
            && ActivatedBy(s, p.next, c, request, now, token.value, newId, p.response))
  {
    c := "";
    ValidCodes(s);
    hide ValidRecords, IdentityOk, DigestsUnique, PlanActivate, CanActivate, Redeemable, ActivatedBy;
    ActivateIff(s, request, upper, now, token, sealing, newId);
    if PlanActivate(s, request, upper, now, token, sealing, newId).Change? {
      c := ActivateEffect(s, request, upper, now, token, sealing, newId);
    }
  }

  /** What a device that passes the check has. */
  lemma CredentialFacts(s: Records, deviceId: string, token: Option<string>, now: Time)
    ensures CheckCredential(s, deviceId, token, now).None? ==>
              TrimSpace(deviceId) in s.devices && s.devices[TrimSpace(deviceId)].licenseId in s.licenses
  {
  }

  /** What Heartbeat does: it succeeds exactly for an active device with its token and a license in force, if
      the write does, and then the device has a new lease and nothing else has changed. */
  lemma HeartbeatDone(s: Records, deviceId: string, token: Option<string>, now: Time, w: Write, d: Disk<Records>,
                      r: Result<Grant, Error>, s': Records, d': Disk<Records>)
    requires ValidRecords(s) && Does(PlanHeartbeat(s, deviceId, token, now), w, s, d, r, s', d')
    ensures r.Ok? <==> CanRenew(s, TrimSpace(deviceId), token, now) && !WriteFails(d, w)
    ensures r.Ok? ==> RenewedAt(s, s', TrimSpace(deviceId), now, r.value)
  {
    HeartbeatEffect(s, deviceId, token, now);
    hide PlanHeartbeat, CanRenew, RenewedAt, ValidRecords, TrimSpace, WriteFails;
  }

  class Store {
    var state: DiskState
    const file: FileSystem<Records>
    const upper: string -> string

    constructor (file: FileSystem<Records>, upper: string -> string)
      ensures this.file == file && this.upper == upper && View() == EMPTY
    {
      this.file := file;
      this.upper := upper;
      state := DiskState(map[], map[], map[]);
    }

    ghost function View(): Records
      reads this, AllCells(state)
    {
      Snapshot(state)
    }

    method Adopt(next: DiskState)
      modifies this
      ensures View() == old(Snapshot(next))
    {
      state := next;
    }

    /** commit: the state is replaced only once it is on disk. */
    method Commit(next: DiskState, w: Write) returns (stored: bool)
      modifies this, file
      ensures stored == !WriteFails(old(file.disk), w)
      ensures file.disk == Written(old(file.disk), old(Snapshot(next)), w)
      ensures state == if stored then next else old(state)
      ensures View() == if stored then old(Snapshot(next)) else old(View())
    {
      if !w.written {
        return false;
      }
      var failed := file.ReplaceFile(Snapshot(next), w.fates);
      if failed {
        return false;
      }
      state := next;
      return true;
    }

    /** Reading the file leaves the records alone. */
    method ReadFile(io: Reads) returns (data: Option<Records>)
      modifies file
      ensures View() == old(View())
      ensures data.Some? <==> Loads(old(file.disk), io)
      ensures data.Some? ==> Agree(data.value, file.disk) && data.value == Recovered(old(file.disk), EMPTY)
    {
      data := file.Load(EMPTY, io);
    }

    /** load, after a restart. */
    method Load(io: Reads) returns (ok: bool)
      modifies this, file
      ensures var found := Recovered(old(file.disk), EMPTY);
        && (ok <==> Loads(old(file.disk), io) && ValidRecords(found) && TokensOpen(found.devices))
        && (ok ==> View() == found && Agree(found, file.disk))
        && (!ok ==> View() == old(View()))
    {
      hide Snapshot, Values, ValidRecords, TokensOpen, AllCells;
      Dereference(state);
      var data := ReadFile(io);
      if data.None? {
        return false;
      }
      ok := ValidateDiskState(data.value);
      if ok {
        ok := RecoverTokens(data.value.devices);
      }
      if ok {
        var records := Decode(data.value);
        Adopt(records);
      }
    }

    method CreateLicense(request: CreateRequest, now: Time, id: Option<string>, draws: Draws, w: Write)
      returns (r: Result<Issued, Error>)
      modifies this, file
      ensures Does(PlanCreate(old(View()), request, now, id, draws), w,
                   old(View()), old(file.disk), r, View(), file.disk)
      ensures FreshCodes(old(View()), draws) ==>
                && (r.Ok? <==> CanCreate(old(View()), request, now, id, draws) && !WriteFails(old(file.disk), w))
                && (r.Ok? ==> Created(old(View()), View(), request, now, id.value, r.value))
    {
      hide IssueCodeIn, TrimSpace, ByteLength, Written, WriteFails, Snapshot, Values, AllCells, CanCreate, Created,
           FreshCodes;
      Dereference(state);
      if FreshCodes(View(), draws) {
        CreateEffect(View(), request, now, id, draws);
      }
      var customer := TrimSpace(request.customer);
      if customer == "" || ByteLength(customer) > 256 || !LimitOk(request.deviceLimit)
         || !ExpiryOk(request.expiresAt, now)
      {
        return Err(InvalidInput);
      }
      var next := CloneDiskState(state);
      Untouched(state);
      if id.None? {
        return Err(RandomFailed);
      }
      next := AddLicense(next, id.value, NewLicense(id.value, request, now));
      Untouched(state);
      r, next := IssueCodeInState(next, id.value, now, draws);
      Untouched(state);
      if r.Err? {
        return;
      }
      var stored := Commit(next, w);
      return if stored then r else Err(NotStored);
    }

    method UpdateLicense(licenseId: string, request: UpdateRequest, now: Time, w: Write)
      returns (r: Result<string, Error>)
      modifies this, file
      ensures Does(PlanUpdate(old(View()), licenseId, request, now), w,
                   old(View()), old(file.disk), r, View(), file.disk)
      ensures r.Ok? <==>
                CanUpdate(old(View()), TrimSpace(licenseId), request, now) && !WriteFails(old(file.disk), w)
      ensures r.Ok? ==> Updated(old(View()), View(), TrimSpace(licenseId), request, now)
    {
      hide UpdateIn, TrimSpace, Written, WriteFails, ActiveDevices, Snapshot, Values, AllCells, CanUpdate, Updated;
      Dereference(state);
      UpdateEffect(View(), licenseId, request, now);
      var id := TrimSpace(licenseId);
      if id !in state.licenses {
        return Err(LicenseNotFound);
      }
      if state.licenses[id].v.status == Revoked {
        return Err(LicenseIsRevoked);
      }
      if !LimitOk(request.deviceLimit) {
        return Err(InvalidInput);
      }
      var active := ActiveDeviceCount(state, id);
      Untouched(state);
      if request.deviceLimit < active || !ExpiryOk(request.expiresAt, now) {
        return Err(InvalidInput);
      }
      var next := CloneDiskState(state);
      Untouched(state);
      UpdateRecords(next, id, request, now);
      Untouched(state);
      var stored := Commit(next, w);
      return if stored then Ok(id) else Err(NotStored);
    }

    method IssueCode(licenseId: string, now: Time, draws: Draws, w: Write) returns (r: Result<Issued, Error>)
      modifies this, file
      ensures Does(PlanIssue(old(View()), licenseId, now, draws), w, old(View()), old(file.disk), r, View(), file.disk)
      ensures FreshCodes(old(View()), draws) ==>
                var l := TrimSpace(licenseId);
                && (r.Ok? <==> InForce(old(View()), l, now) && CanDraw(old(View()), draws)
                               && !WriteFails(old(file.disk), w))
                && (r.Ok? ==> CodeAdded(old(View()), View(), l, now, r.value)
                              && View() == old(View()).(codes := View().codes))
    {
      hide IssueCodeIn, TrimSpace, Written, WriteFails, Snapshot, Values, AllCells, CanDraw, CodeAdded, FreshCodes,
           InForce;
      Dereference(state);
      if FreshCodes(View(), draws) {
        IssueEffect(View(), licenseId, now, draws);
      }
      var id := TrimSpace(licenseId);
      if id !in state.licenses {
        return Err(LicenseNotFound);
      }
      var unusable := Usable(state.licenses[id].v, now);
      if unusable.Some? {
        return Err(unusable.value);
      }
      var next := CloneDiskState(state);
      Untouched(state);
      r, next := IssueCodeInState(next, id, now, draws);
      Untouched(state);
      if r.Err? {
        return;
      }
      var stored := Commit(next, w);
      return if stored then r else Err(NotStored);
    }

    /** The checks of Activate that come before the clone. */
    method FindUsableCode(a: ActivateRequest, now: Time) returns (r: Result<string, Error>)
      requires DigestsUnique(View().codes)
      ensures r == UsableCode(View(), a, now) && View() == old(View())
    {
      hide ByteLength, Snapshot, Values, AllCells, Conflicts, CodeWith, KnownDigest;
      Dereference(state);
      if !Acceptable(a) {
        return Err(InvalidInput);
      }
      var code := FindCodeByDigest(state, Mac("code", a.code));
      Untouched(state);
      if code.None? {
        return Err(CodeInvalid);
      }
      var l := state.codes[code.value].v.licenseId;
      if l !in state.licenses {
        return Err(LicenseNotFound);
      }
      var unusable := Usable(state.licenses[l].v, now);
      if unusable.Some? {
        return Err(unusable.value);
      }
      var conflict := FindInstallationConflict(state, a.installationId, a.publicKey);
      Untouched(state);
      if conflict {
        return Err(InstallationConflict);
      }
      return if state.codes[code.value].v.status == Consumed then Err(CodeUsed) else Ok(code.value);
    }

    method Activate(request: ActivateRequest, now: Time, token: Option<string>, sealing: bool, newId: Option<string>,
                    w: Write)
      returns (r: Result<Grant, Error>)
      requires ValidRecords(View()) && IdentityOk(View().devices)
      requires newId.Some? ==> newId.value !in View().devices
      modifies this, file
      ensures Does(PlanActivate(old(View()), request, upper, now, token, sealing, newId), w,
                   old(View()), old(file.disk), r, View(), file.disk)
      ensures r.Ok? <==> CanActivate(old(View()), request, upper, now, token, sealing, newId)
                         && !WriteFails(old(file.disk), w)
      ensures r.Ok? ==>
                && token.Some?
                && exists c :: Redeemable(old(View()), c, upper(TrimSpace(request.code)), now)
                     && ActivatedBy(old(View()), View(), c, request, now, token.value, newId, r.value)
    {
      hide Snapshot, Values, AllCells, Normalize, PlanActivate, PlanBinding, Written, WriteFails, IdentityOk,
           ValidRecords,
           UsableCode, CanActivate, ActivatedBy, Redeemable;
      Dereference(state);
      ghost var c := ActivationEffect(View(), request, upper, now, token, sealing, newId);
      ValidCodes(View());
      var a := Normalize(request, upper);
      var code := FindUsableCode(a, now);
      ActivationSplits(View(), request, upper, now, token, sealing, newId);
      if code.Err? {
        return Err(code.error);
      }
      var next := CloneDiskState(state);
      Untouched(state);
      Dereference(next);
      r, next := BindDevice(next, code.value, a, now, token, sealing, newId);
      Untouched(state);
      if r.Err? {
        return;
      }
      var stored := Commit(next, w);
      return if stored then r else Err(NotStored);
    }

    /** validateDeviceCredentialLocked. */
    method ValidateDeviceCredential(deviceId: string, token: Option<string>, now: Time) returns (r: Option<Error>)
      ensures r == CheckCredential(View(), deviceId, token, now)
    {
      hide TrimSpace, Snapshot, Values;
      Dereference(state);
      var id := TrimSpace(deviceId);
      if token.None? || id == "" {
        return Some(TokenInvalid);
      }
      if id !in state.devices {
        return Some(DeviceNotFound);
      }
      var device := state.devices[id].v;
      if device.tokenDigest != Mac("token", token.value) {
        return Some(TokenInvalid);
      }
      if device.licenseId !in state.licenses {
        return Some(LicenseNotFound);
      }
      var unusable := Usable(state.licenses[device.licenseId].v, now);
      if unusable.Some? {
        return unusable;
      }
      match device.status
      case DeviceReleased => return Some(DeviceIsReleased);
      case DeviceRevoked => return Some(DeviceIsRevoked);
      case DeviceActive => return None;
    }

    method AuthorizeDevice(deviceId: string, token: Option<string>, now: Time) returns (r: Result<Grant, Error>)
      ensures r == Authorize(View(), deviceId, token, now)
    {
      hide TrimSpace, Snapshot, Values, AllCells;
      Dereference(state);
      var refusal := ValidateDeviceCredential(deviceId, token, now);
      Untouched(state);
      if refusal.Some? {
        return Err(refusal.value);
      }
      var device := state.devices[TrimSpace(deviceId)].v;
      if device.leaseExpiresAt == 0 || now >= device.leaseExpiresAt {
        return Err(LeaseExpired);
      }
      return Ok(MakeGrant(device, "", state.licenses[device.licenseId].v, now));
    }

    method Heartbeat(deviceId: string, token: Option<string>, now: Time, w: Write) returns (r: Result<Grant, Error>)
      modifies this, file
      ensures Does(PlanHeartbeat(old(View()), deviceId, token, now), w,
                   old(View()), old(file.disk), r, View(), file.disk)
    {
      hide HeartbeatIn, MakeGrant, TrimSpace, Written, WriteFails, Snapshot, Values, AllCells, CheckCredential;
      Dereference(state);
      CredentialFacts(View(), deviceId, token, now);
      var refusal := ValidateDeviceCredential(deviceId, token, now);
      Untouched(state);
      if refusal.Some? {
        return Err(refusal.value);
      }
      var id := TrimSpace(deviceId);
      var next := CloneDiskState(state);
      Untouched(state);
      Dereference(next);
      var grant := HeartbeatRecords(next, id, now);
      Untouched(state);
      var stored := Commit(next, w);
      return if stored then Ok(grant) else Err(NotStored);
    }

    method RevokeLicense(licenseId: string, now: Time, w: Write) returns (r: Result<string, Error>)
      modifies this, file
      ensures Does(PlanRevoke(old(View()), licenseId, now), w, old(View()), old(file.disk), r, View(), file.disk)
      ensures r.Ok? && !IsRevoked(old(View()), TrimSpace(licenseId)) ==>
                RevokedAt(old(View()), View(), TrimSpace(licenseId), now)
    {
      hide RevokeIn, TrimSpace, Written, WriteFails, Snapshot, Values, AllCells, RevokedAt;
      Dereference(state);
      RevokeEffect(View(), licenseId, now);
      var id := TrimSpace(licenseId);
      if id !in state.licenses {
        return Err(LicenseNotFound);
      }
      if state.licenses[id].v.status == Revoked {
        return Ok(id);
      }
      var next := CloneDiskState(state);
      Untouched(state);
      RevokeRecords(next, id, now);
      Untouched(state);
      var stored := Commit(next, w);
      return if stored then Ok(id) else Err(NotStored);
    }

    method ReleaseDevice(deviceId: string, now: Time, w: Write) returns (r: Result<string, Error>)
      modifies this, file
      ensures Does(PlanRelease(old(View()), deviceId, now), w, old(View()), old(file.disk), r, View(), file.disk)
      ensures r.Ok? ==>
                var d := TrimSpace(deviceId);
                d in old(View()).devices
                && if old(View()).devices[d].status == DeviceReleased then View() == old(View())
                   else ReleasedAt(old(View()), View(), d, now)
    {
      hide ReleaseIn, TrimSpace, Written, WriteFails, Snapshot, Values, AllCells, ReleasedAt;
      Dereference(state);
      ReleaseEffect(View(), deviceId, now);
      var id := TrimSpace(deviceId);
      if id !in state.devices {
        return Err(DeviceNotFound);
      }
      if state.devices[id].v.status == DeviceReleased {
        return Ok(id);
      }
      var next := CloneDiskState(state);
      Untouched(state);
      ReleaseRecords(next, id, now);
      Untouched(state);
      var stored := Commit(next, w);
      return if stored then Ok(id) else Err(NotStored);
    }
  }
}
