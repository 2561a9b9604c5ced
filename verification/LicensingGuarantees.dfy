/** The guarantees of the licensing store, each for every run. */
module LicensingGuarantees {
  import opened Prelude
  import opened Text
  import opened LicensingModel
  import opened LicensingInvariant
  import opened LicensingRuns

  // ----- what one call does to tokens, revocations and codes -----

  function TokenOf(s: Records, d: string): Digest {
    if d in s.devices then s.devices[d].tokenDigest else NoDigest
  }

  /** The activation reply of a successful activation or heartbeat. */
  ghost function GrantOf(s: Records, c: Call, upper: string -> string): Option<Grant> {
    var p := PlanOf(s, c.event, upper);
    if p.Change? && c.stored && p.response.GrantReply? then Some(p.response.grant) else None
  }

  /** The call is a successful activation of device `d`. */
  ghost predicate ActivatesDevice(s: Records, c: Call, upper: string -> string, d: string) {
    c.event.Activate? && GrantOf(s, c, upper).Some? && GrantOf(s, c, upper).value.deviceId == d
  }

  ghost predicate ReleasesDevice(s: Records, c: Call, upper: string -> string, d: string) {
    c.event.Release? && TrimSpace(c.event.id) == d && Succeeds(s, c, upper)
  }

  ghost predicate RevokesLicense(s: Records, c: Call, upper: string -> string, l: string) {
    c.event.Revoke? && TrimSpace(c.event.id) == l && Succeeds(s, c, upper)
  }

  /** Creating a license or issuing a code adds one unused code, and perhaps a license. */
  ghost predicate Generates(s: Records, next: Records, issued: Issued) {
    && next.devices == s.devices
    && (forall l <- s.licenses :: l in next.licenses && next.licenses[l] == s.licenses[l])
    && (forall l <- next.licenses :: l in s.licenses || next.licenses[l].status == Valid)
    && (forall c <- s.codes :: c in next.codes && next.codes[c] == s.codes[c])
    && (forall c <- next.codes ::
          c in s.codes || (next.codes[c].status == Available && next.codes[c].licenseId == issued.licenseId))
  }

  lemma IssueGenerates(s: Records, licenseId: string, now: Time, draws: Draws)
    requires FreshCodes(s, draws) && IssueCodeIn(s, licenseId, now, draws, 0).Change?
    ensures var p := IssueCodeIn(s, licenseId, now, draws, 0);
      Generates(s, p.next, p.response) && p.response.licenseId == licenseId && p.next.licenses == s.licenses
  {
    hide IssueCodeIn, KnownDigest;
    IssueAdds(s, licenseId, now, draws, 0);
  }

  lemma GenerateShape(s: Records, c: Call, upper: string -> string)
    requires FreshIds(s, c.event) && (c.event.Create? || c.event.Issue?)
    requires PlanOf(s, c.event, upper).Change?
    ensures var p := PlanOf(s, c.event, upper);
      && p.response.CodeReply? && Generates(s, p.next, p.response.issued)
      && (c.event.Issue? ==>
            p.response.issued.licenseId in s.licenses && s.licenses[p.response.issued.licenseId].status == Valid)
      && (c.event.Create? ==> p.response.issued.licenseId !in s.licenses)
  {
    hide IssueCodeIn, TrimSpace, ByteLength, Generates;
    match c.event
    case Create(request, now, id, draws) =>
      var with := s.(licenses := s.licenses[id.value := NewLicense(id.value, request, now)]);
      IssueGenerates(with, id.value, now, draws);
      GeneratesAfterLicense(s, id.value, NewLicense(id.value, request, now),
                            IssueCodeIn(with, id.value, now, draws, 0).next,
                            IssueCodeIn(with, id.value, now, draws, 0).response);
    case Issue(id, now, draws) => IssueGenerates(s, TrimSpace(id), now, draws);
  }

  lemma GeneratesAfterLicense(s: Records, id: string, l: License, next: Records, issued: Issued)
    requires id !in s.licenses && l.status == Valid
    requires Generates(s.(licenses := s.licenses[id := l]), next, issued)
    ensures Generates(s, next, issued)
  {
    var with := s.(licenses := s.licenses[id := l]);
    forall k <- next.licenses ensures k in s.licenses || next.licenses[k].status == Valid {
      if k == id {
        assert id in with.licenses && next.licenses[id] == with.licenses[id];
      }
    }
  }

  /** Update, heartbeat, revocation and release rewrite records one by one. */
  ghost predicate RewritesOnly(s: Records, next: Records, released: Option<string>, revoked: Option<string>) {
    && next.codes == s.codes
    && next.devices.Keys == s.devices.Keys && next.licenses.Keys == s.licenses.Keys
    && (forall d <- s.devices :: next.devices[d].licenseId == s.devices[d].licenseId
          && next.devices[d].tokenDigest == if released == Some(d) then NoDigest else s.devices[d].tokenDigest)
    && (forall l <- s.licenses :: next.licenses[l].status == Revoked <==>
          s.licenses[l].status == Revoked || revoked == Some(l))
  }

  predicate IsRewrite(e: Event) {
    e.Update? || e.Heartbeat? || e.Revoke? || e.Release?
  }

  lemma RewriteShape(s: Records, c: Call, upper: string -> string)
    requires IsRewrite(c.event) && PlanOf(s, c.event, upper).Change?
    ensures RewritesOnly(s, PlanOf(s, c.event, upper).next,
                         if c.event.Release? then Some(TrimSpace(c.event.id)) else None,
                         if c.event.Revoke? then Some(TrimSpace(c.event.id)) else None)
    ensures c.event.Release? ==> TrimSpace(c.event.id) in s.devices
    ensures c.event.Revoke? ==> TrimSpace(c.event.id) in s.licenses
  {
    hide TrimSpace, ActiveDevices;
  }

  lemma AnswerShape(s: Records, c: Call, upper: string -> string)
    requires PlanOf(s, c.event, upper).Answer?
    ensures c.event.Revoke? || c.event.Release?
    ensures c.event.Revoke? ==> IsRevoked(s, TrimSpace(c.event.id))
    ensures c.event.Release? ==>
              TrimSpace(c.event.id) in s.devices && s.devices[TrimSpace(c.event.id)].status == DeviceReleased
  {
    hide TrimSpace, ActiveDevices, IssueCodeIn, PlanActivate;
    match c.event
    case Create(request, now, id, draws) =>
      if id.Some? {
        IssueAdds(s.(licenses := s.licenses[id.value := NewLicense(id.value, request, now)]), id.value, now, draws, 0);
      }
    case Issue(id, now, draws) => IssueAdds(s, TrimSpace(id), now, draws, 0);
    case Activate(r0, now, token, sealing, newId) => ActivationNeverAnswers(s, r0, upper, now, token, sealing, newId);
    case _ =>
  }

  lemma ActivationNeverAnswers(s: Records, r0: ActivateRequest, upper: string -> string, now: Time,
                               token: Option<string>, sealing: bool, newId: Option<string>)
    ensures !PlanActivate(s, r0, upper, now, token, sealing, newId).Answer?
  {
    hide TrimSpace, ActiveDevices, ByteLength, CodeWith, DeviceWith, Conflicts;
  }

  /** A successful activation consumes one available code for one device. */
  lemma ActivateShape(s: Records, c: Call, upper: string -> string) returns (code: string, id: string,
                      r: ActivateRequest)
    requires StoreOk(s) && FreshIds(s, c.event) && c.event.Activate? && PlanOf(s, c.event, upper).Change?
    ensures var p := PlanOf(s, c.event, upper);
      && Consumes(s, code, r, id, p.next) && s.codes[code].status == Available
      && s.licenses[s.codes[code].licenseId].status == Valid
      && p.response.GrantReply? && p.response.grant.deviceId == id
      && p.response.grant.licenseId == s.codes[code].licenseId
      && p.next.devices[id].tokenDigest == Mac("token", p.response.grant.token)
  {
    var Activate(r0, now, token, sealing, newId) := c.event;
    ValidOf(s);
    var known;
    code, known, r, id := ActivationFinds(s, r0, upper, now, token, sealing, newId);
    hide PlanActivate, ActivatedStore, StoreOk;
    ActivatedDevice(s, code, known, r, id, token.value, now);
    LicenseIds(s, s.codes[code].licenseId);
    hide ValidRecords, Conflicts, ActiveDevices, SameDevice;
  }

  lemma LicenseIds(s: Records, l: string)
    requires ValidRecords(s) && l in s.licenses
    ensures s.licenses[l].id == l
  {
  }

  lemma TokenStep(s: Records, c: Call, upper: string -> string, d: string)
    requires StoreOk(s) && FreshIds(s, c.event)
    ensures TokenOf(After(s, c, upper), d) ==
            if ActivatesDevice(s, c, upper, d) then Mac("token", GrantOf(s, c, upper).value.token)
            else if ReleasesDevice(s, c, upper, d) then NoDigest
            else TokenOf(s, d)
  {
    hide StoreOk, PlanOf, TrimSpace, FreshIds, SameDevice;
    var p := PlanOf(s, c.event, upper);
    if p.Change? {
      if c.event.Activate? {
        var code, id, r := ActivateShape(s, c, upper);
      } else if IsRewrite(c.event) {
        RewriteShape(s, c, upper);
      } else {
        GenerateShape(s, c, upper);
      }
    } else if p.Answer? {
      AnswerShape(s, c, upper);
      if c.event.Release? {
        DeviceFacts(s, TrimSpace(c.event.id));
      }
    }
  }

  lemma RevokedStep(s: Records, c: Call, upper: string -> string, l: string)
    requires StoreOk(s) && FreshIds(s, c.event)
    ensures IsRevoked(After(s, c, upper), l) <==> IsRevoked(s, l) || RevokesLicense(s, c, upper, l)
  {
    hide StoreOk, PlanOf, TrimSpace, FreshIds, SameDevice;
    var p := PlanOf(s, c.event, upper);
    if p.Change? {
      if c.event.Activate? {
        var code, id, r := ActivateShape(s, c, upper);
      } else if IsRewrite(c.event) {
        RewriteShape(s, c, upper);
      } else {
        GenerateShape(s, c, upper);
      }
    } else if p.Answer? {
      AnswerShape(s, c, upper);
    }
  }

  // ----- device tokens over runs -----

  /** The token returned by the latest successful activation of a device, unless it was released since. */
  ghost function LastToken(states: seq<Records>, calls: seq<Call>, upper: string -> string, i: nat,
                           d: string): Option<string>
    requires i < |states| <= |calls| + 1
  {
    if i == 0 then None
    else if ActivatesDevice(states[i - 1], calls[i - 1], upper, d) then
      Some(GrantOf(states[i - 1], calls[i - 1], upper).value.token)
    else if ReleasesDevice(states[i - 1], calls[i - 1], upper, d) then None
    else LastToken(states, calls, upper, i - 1, d)
  }

  /** Some earlier call revoked the license. */
  ghost predicate WasRevoked(states: seq<Records>, calls: seq<Call>, upper: string -> string, i: nat, l: string)
    requires i < |states| <= |calls| + 1
  {
    exists k :: 0 <= k < i && RevokesLicense(states[k], calls[k], upper, l)
  }

  lemma {:induction false} TokensFollowHistory(states: seq<Records>, calls: seq<Call>, upper: string -> string,
                                               i: nat, d: string)
    requires StoreRun(states, calls, upper) && i < |states|
    ensures TokenOf(states[i], d) == match LastToken(states, calls, upper, i, d)
                                     case None => NoDigest
                                     case Some(t) => Mac("token", t)
  {
    hide StoreOk, PlanOf, FreshIds, After, ActivatesDevice, ReleasesDevice;
    if i > 0 {
      TokensFollowHistory(states, calls, upper, i - 1, d);
      RunKeepsStoreOk(states, calls, upper, i - 1);
      TokenStep(states[i - 1], calls[i - 1], upper, d);
    }
  }

  lemma {:induction false} RevocationsFollowHistory(states: seq<Records>, calls: seq<Call>, upper: string -> string,
                                                    i: nat, l: string)
    requires StoreRun(states, calls, upper) && i < |states|
    ensures IsRevoked(states[i], l) <==> WasRevoked(states, calls, upper, i, l)
  {
    hide StoreOk, PlanOf, FreshIds, After, RevokesLicense;
    if i > 0 {
      RevocationsFollowHistory(states, calls, upper, i - 1, l);
      RunKeepsStoreOk(states, calls, upper, i - 1);
      RevokedStep(states[i - 1], calls[i - 1], upper, l);
    }
  }

  /** A device is authorized exactly while its token is the one of its latest activation, it has not
      been released since, its license has not been revoked, and neither license nor lease is over. */
  lemma AuthorizedIff(states: seq<Records>, calls: seq<Call>, upper: string -> string, i: nat,
                      deviceId: string, token: string, now: Time)
    requires StoreRun(states, calls, upper) && i < |states|
    ensures var d := TrimSpace(deviceId);
      Authorize(states[i], deviceId, Some(token), now).Ok? <==>
        && d != ""
        && LastToken(states, calls, upper, i, d) == Some(token)
        && d in states[i].devices && states[i].devices[d].licenseId in states[i].licenses
        && var l := states[i].devices[d].licenseId;
        && !WasRevoked(states, calls, upper, i, l)
        && !HasExpired(states[i].licenses[l], now)
        && now < states[i].devices[d].leaseExpiresAt
  {
    var s, d := states[i], TrimSpace(deviceId);
    hide PlanOf, FreshIds, After, LastToken, WasRevoked, TrimSpace;
    RunKeepsStoreOk(states, calls, upper, i);
    TokensFollowHistory(states, calls, upper, i, d);
    if d in s.devices {
      RevocationsFollowHistory(states, calls, upper, i, s.devices[d].licenseId);
      DeviceFacts(s, d);
    }
    hide StoreOk;
  }

  lemma DeviceFacts(s: Records, d: string)
    requires StoreOk(s) && d in s.devices
    ensures s.devices[d].licenseId in s.licenses
    ensures s.devices[d].status == DeviceReleased ==> s.devices[d].tokenDigest == NoDigest
    ensures s.devices[d].status == DeviceRevoked ==> IsRevoked(s, s.devices[d].licenseId)
  {
    hide TokensOpen, LimitsOk, IdentityOk, LeasesOk, DevicesPaid, DigestsUnique;
  }

  // ----- one-time codes -----

  function ConsumedCodes(codes: map<string, Code>, l: string): set<string> {
    set c | c in codes && codes[c].status == Consumed && codes[c].licenseId == l
  }

  /** No code disappears, and a consumed code stays exactly as it is. */
  ghost predicate CodesForward(s: Records, s': Records) {
    forall c <- s.codes ::
      && c in s'.codes && s'.codes[c].digest == s.codes[c].digest && s'.codes[c].licenseId == s.codes[c].licenseId
      && (s.codes[c].status == Consumed ==> s'.codes[c] == s.codes[c])
  }

  /** The call is a successful activation under license `l`. */
  ghost predicate ActivatesUnder(s: Records, c: Call, upper: string -> string, l: string) {
    c.event.Activate? && GrantOf(s, c, upper).Some? && GrantOf(s, c, upper).value.licenseId == l
  }

  /** One call consumes one more code of the license if it is a successful activation under it, else none. */
  lemma CodeStep(s: Records, c: Call, upper: string -> string, l: string)
    requires StoreOk(s) && FreshIds(s, c.event)
    ensures CodesForward(s, After(s, c, upper))
    ensures |ConsumedCodes(After(s, c, upper).codes, l)|
            == |ConsumedCodes(s.codes, l)| + if ActivatesUnder(s, c, upper, l) then 1 else 0
  {
    hide StoreOk, PlanOf, FreshIds, SameDevice, CodesForward, ConsumedCodes;
    var p := PlanOf(s, c.event, upper);
    if p.Change? && c.stored {
      if c.event.Activate? {
        var code, id, r := ActivateShape(s, c, upper);
        OneMoreConsumed(s, code, r, id, p.next, l);
      } else if IsRewrite(c.event) {
        RewriteShape(s, c, upper);
        SameCodes(s, p.next);
      } else {
        GenerateShape(s, c, upper);
        OneMoreAvailable(s, p.next, p.response.issued, l);
      }
    } else {
      SameCodes(s, s);
    }
  }

  lemma SameCodes(s: Records, s': Records)
    requires s'.codes == s.codes
    ensures CodesForward(s, s')
  {
  }

  lemma OneMoreConsumed(s: Records, code: string, r: ActivateRequest, id: string, next: Records, l: string)
    requires Consumes(s, code, r, id, next) && s.codes[code].status == Available
    ensures CodesForward(s, next)
    ensures |ConsumedCodes(next.codes, l)|
            == |ConsumedCodes(s.codes, l)| + if l == s.codes[code].licenseId then 1 else 0
  {
    hide SameDevice;
    if l == s.codes[code].licenseId {
      assert ConsumedCodes(next.codes, l) == ConsumedCodes(s.codes, l) + {code};
    } else {
      assert ConsumedCodes(next.codes, l) == ConsumedCodes(s.codes, l);
    }
  }

  lemma OneMoreAvailable(s: Records, next: Records, issued: Issued, l: string)
    requires Generates(s, next, issued)
    ensures CodesForward(s, next) && ConsumedCodes(next.codes, l) == ConsumedCodes(s.codes, l)
  {
  }

  lemma {:induction false} CodesNeverReturn(states: seq<Records>, calls: seq<Call>, upper: string -> string, i: nat,
                                            j: nat)
    requires StoreRun(states, calls, upper) && i <= j < |states|
    ensures CodesForward(states[i], states[j])
  {
    hide StoreOk, PlanOf, FreshIds, CodesForward, After;
    if i == j {
      SameCodes(states[i], states[i]);
    } else {
      CodesNeverReturn(states, calls, upper, i, j - 1);
      RunKeepsStoreOk(states, calls, upper, j - 1);
      CodeStep(states[j - 1], calls[j - 1], upper, "");
      ForwardTwice(states[i], states[j - 1], states[j]);
    }
  }

  lemma ForwardTwice(a: Records, b: Records, c: Records)
    requires CodesForward(a, b) && CodesForward(b, c)
    ensures CodesForward(a, c)
  {
    forall k <- a.codes
      ensures k in c.codes && c.codes[k].digest == a.codes[k].digest && c.codes[k].licenseId == a.codes[k].licenseId
      ensures a.codes[k].status == Consumed ==> c.codes[k] == a.codes[k]
    {
      assert k in b.codes;
    }
  }

  /** How many of the first `i` calls activated a device under license `l`. */
  ghost function Activations(states: seq<Records>, calls: seq<Call>, upper: string -> string, i: nat, l: string): nat
    requires i < |states| <= |calls| + 1
  {
    if i == 0 then 0
    else Activations(states, calls, upper, i - 1, l)
         + if ActivatesUnder(states[i - 1], calls[i - 1], upper, l) then 1 else 0
  }

  /** Codes are conserved: a license has as many consumed codes as successful activations, and never
      more devices than that. */
  lemma {:induction false} CodesAreConserved(states: seq<Records>, calls: seq<Call>, upper: string -> string, i: nat,
                                             l: string)
    requires StoreRun(states, calls, upper) && i < |states|
    ensures |ConsumedCodes(states[i].codes, l)| == Activations(states, calls, upper, i, l)
    ensures |set d | d in states[i].devices && states[i].devices[d].licenseId == l|
            <= Activations(states, calls, upper, i, l)
  {
    hide StoreOk, PlanOf, FreshIds, After, ActivatesUnder;
    RunKeepsStoreOk(states, calls, upper, i);
    DevicesWithinCodes(states[i], l);
    if i > 0 {
      CodesAreConserved(states, calls, upper, i - 1, l);
      RunKeepsStoreOk(states, calls, upper, i - 1);
      CodeStep(states[i - 1], calls[i - 1], upper, l);
    } else {
      assert ConsumedCodes(EMPTY.codes, l) == {};
    }
  }

  lemma DevicesWithinCodes(s: Records, l: string)
    requires StoreOk(s)
    ensures |set d | d in s.devices && s.devices[d].licenseId == l| <= |ConsumedCodes(s.codes, l)|
  {
    hide ValidRecords, TokensOpen, LimitsOk, IdentityOk, LeasesOk, RevocationOk, ReleasedOk;
    var devices := set d | d in s.devices && s.devices[d].licenseId == l;
    assert forall d <- devices :: PaidFor(s.codes, d, l);
    var paid: map<string, string> :=
      map d | d in devices :: (var c :| c in s.codes && s.codes[c].status == Consumed && s.codes[c].deviceId == d
                                       && s.codes[c].licenseId == l; c);
    forall d, e | d in devices && e in devices && paid[d] == paid[e] ensures d == e {
      assert s.codes[paid[d]].deviceId == d && s.codes[paid[e]].deviceId == e;
    }
    InjectionSize(devices, paid, ConsumedCodes(s.codes, l));
  }

  // ----- revocation is for ever -----

  /** The license an issued code or a grant is for. */
  function Beneficiary(r: Reply): Option<string> {
    match r
    case CodeReply(issued) => Some(issued.licenseId)
    case GrantReply(grant) => Some(grant.licenseId)
    case _ => None
  }

  /** A code, an activation or a renewal is only ever given to a license that is not revoked. */
  lemma NothingForRevoked(s: Records, c: Call, upper: string -> string, l: string)
    requires StoreOk(s) && FreshIds(s, c.event) && IsRevoked(s, l)
    ensures PlanOf(s, c.event, upper).Change? ==> Beneficiary(PlanOf(s, c.event, upper).response) != Some(l)
  {
    if PlanOf(s, c.event, upper).Change? {
      hide StoreOk, PlanOf, FreshIds, SameDevice, Generates;
      if c.event.Activate? {
        var code, id, r := ActivateShape(s, c, upper);
      } else if c.event.Heartbeat? {
        RenewalIsForValid(s, c, upper);
      } else if IsRewrite(c.event) {
        NoBeneficiary(s, c, upper);
      } else {
        GenerateShape(s, c, upper);
      }
    }
  }

  lemma RenewalIsForValid(s: Records, c: Call, upper: string -> string)
    requires StoreOk(s) && c.event.Heartbeat? && PlanOf(s, c.event, upper).Change?
    ensures PlanOf(s, c.event, upper).response.GrantReply?
    ensures !IsRevoked(s, PlanOf(s, c.event, upper).response.grant.licenseId)
  {
    ValidOf(s);
    hide StoreOk, TrimSpace, DigestsUnique, CodeOk;
  }

  lemma NoBeneficiary(s: Records, c: Call, upper: string -> string)
    requires IsRewrite(c.event) && !c.event.Heartbeat? && PlanOf(s, c.event, upper).Change?
    ensures Beneficiary(PlanOf(s, c.event, upper).response).None?
  {
    hide TrimSpace, ActiveDevices;
  }

  /** Once revoked, a license stays revoked, never has an active device again, gets no further code,
      and no call grants it anything. */
  lemma RevokedForEver(states: seq<Records>, calls: seq<Call>, upper: string -> string, i: nat, j: nat, l: string)
    requires StoreRun(states, calls, upper) && i <= j < |states| && IsRevoked(states[i], l)
    ensures IsRevoked(states[j], l)
    ensures forall d <- states[j].devices :: states[j].devices[d].licenseId == l ==>
              states[j].devices[d].status != DeviceActive
    ensures CodesWithin(states[i], states[j], l)
    ensures j < |calls| && PlanOf(states[j], calls[j].event, upper).Change? ==>
              Beneficiary(PlanOf(states[j], calls[j].event, upper).response) != Some(l)
  {
    RevokedStays(states, calls, upper, i, j, l);
    RunKeepsStoreOk(states, calls, upper, j);
    NoActiveDevice(states[j], l);
    if j < |calls| {
      NothingForRevoked(states[j], calls[j], upper, l);
    }
    hide StoreOk, PlanOf, FreshIds, After;
  }

  lemma NoActiveDevice(s: Records, l: string)
    requires StoreOk(s) && IsRevoked(s, l)
    ensures forall d <- s.devices :: s.devices[d].licenseId == l ==> s.devices[d].status != DeviceActive
  {
    hide ValidRecords, TokensOpen, LimitsOk, IdentityOk, LeasesOk, DevicesPaid, ReleasedOk;
  }

  /** The codes of license `l` in `b` are codes of that license in `a`. */
  ghost predicate CodesWithin(a: Records, b: Records, l: string) {
    forall c <- b.codes :: b.codes[c].licenseId == l ==> c in a.codes && a.codes[c].licenseId == l
  }

  lemma {:induction false} RevokedStays(states: seq<Records>, calls: seq<Call>, upper: string -> string, i: nat,
                                        j: nat, l: string)
    requires StoreRun(states, calls, upper) && i <= j < |states| && IsRevoked(states[i], l)
    ensures IsRevoked(states[j], l) && CodesWithin(states[i], states[j], l)
    decreases j
  {
    hide StoreOk, PlanOf, FreshIds, After, RevokesLicense, IsRevoked, CodesWithin;
    if i == j {
      WithinItself(states[i], l);
    } else {
      RevokedStays(states, calls, upper, i, j - 1, l);
      RunKeepsStoreOk(states, calls, upper, j - 1);
      RevokedStep(states[j - 1], calls[j - 1], upper, l);
      NoNewCode(states[j - 1], calls[j - 1], upper, l);
      WithinTwice(states[i], states[j - 1], states[j], l);
    }
  }

  lemma WithinItself(a: Records, l: string)
    ensures CodesWithin(a, a, l)
  {
  }

  lemma WithinTwice(a: Records, b: Records, c: Records, l: string)
    requires CodesWithin(a, b, l) && CodesWithin(b, c, l)
    ensures CodesWithin(a, c, l)
  {
  }

  lemma NoNewCode(s: Records, c: Call, upper: string -> string, l: string)
    requires StoreOk(s) && FreshIds(s, c.event) && IsRevoked(s, l)
    ensures CodesWithin(s, After(s, c, upper), l)
  {
    hide StoreOk, PlanOf, FreshIds, SameDevice, IsRevoked;
    var p := PlanOf(s, c.event, upper);
    if p.Change? && c.stored {
      NothingForRevoked(s, c, upper, l);
      if c.event.Activate? {
        var code, id, r := ActivateShape(s, c, upper);
      } else if IsRewrite(c.event) {
        RewriteShape(s, c, upper);
      } else {
        GenerateShape(s, c, upper);
      }
    }
  }
}
