/** The client's license file: what it remembers of the server's replies, and when it counts as activated. */
module LicenseClient {
  import opened Prelude
  import opened Text
  import opened LicensingModel

  /** The license part of a reply, with the status spelled out. */
  datatype LicenseInfo = LicenseInfo(id: string, status: string, expiresAt: Option<Time>)

  datatype ClientState = ClientState(
    managerUrl: string, installationId: string, deviceId: string, token: Sealed, license: LicenseInfo,
    lease: Option<Time>, checkedAt: Option<Time>, lastError: string)

  const NO_LICENSE := LicenseInfo("", "", None)

  function TrimSlashes(s: string): string {
    if s != "" && s[|s| - 1] == '/' then TrimSlashes(s[..|s| - 1]) else s
  }

  /** All slashes at the end are dropped, and nothing else. */
  lemma {:induction false} TrimmedSlashes(s: string)
    ensures TrimSlashes(s) <= s && forall i :: |TrimSlashes(s)| <= i < |s| ==> s[i] == '/'
    ensures TrimSlashes(s) != "" ==> TrimSlashes(s)[|TrimSlashes(s)| - 1] != '/'
  {
    if s != "" && s[|s| - 1] == '/' {
      TrimmedSlashes(s[..|s| - 1]);
    }
  }

  /** What arrives at the client, in the order its requests ask for it. */
  datatype Message =
    | ActivationReply(url: string, deviceId: string, token: string, license: LicenseInfo, lease: Time)
    | HeartbeatReply(license: LicenseInfo, lease: Time)
    | RemoteError(status: string, message: string)

  /** What Status returns. */
  datatype Report = Report(
    managerUrl: string, installationId: string, activated: bool, deviceId: string, license: LicenseInfo,
    lease: Option<Time>, checkedAt: Option<Time>, lastError: string)

  /** Status(now).Activated. */
  predicate IsActivated(c: ClientState, now: Time) {
    && c.deviceId != "" && c.token != Nothing && c.license.status == "active"
    && c.lease.Some? && now < c.lease.value
    && (c.license.expiresAt.Some? ==> now < c.license.expiresAt.value)
  }

  predicate Complete(m: Message) {
    m.ActivationReply? ==>
      TrimSlashes(TrimSpace(m.url)) != "" && m.deviceId != "" && m.token != "" && m.license.id != ""
  }

  /** The state a complete message leads to, if it can be saved. */
  function Received(c: ClientState, m: Message, checkedAt: Time): ClientState {
    match m
    case ActivationReply(url, deviceId, token, license, lease) =>
      c.(managerUrl := TrimSlashes(TrimSpace(url)), deviceId := deviceId, token := Sealed(token), license := license,
         lease := Some(lease), checkedAt := Some(checkedAt), lastError := "")
    case HeartbeatReply(license, lease) =>
      c.(license := license, lease := Some(lease), checkedAt := Some(checkedAt), lastError := "")
    case RemoteError(status, message) =>
      c.(license := if status != "" then c.license.(status := status) else c.license,
         checkedAt := Some(checkedAt), lastError := message)
  }

  /** Open: the saved state, with the default address when none was saved. */
  function Opened(saved: ClientState, defaultUrl: string): ClientState {
    if saved.managerUrl == "" then saved.(managerUrl := TrimSpace(defaultUrl)) else saved
  }

  /** A remote refusal that names a status ends the activation as soon as it is saved; one without a status
      leaves it as it was. */
  lemma RefusalEndsActivation(c: ClientState, status: string, message: string, checkedAt: Time, now: Time)
    ensures var after := Received(c, RemoteError(status, message), checkedAt);
      && (status != "" && status != "active" ==> !IsActivated(after, now))
      && (status == "" ==> (IsActivated(after, now) <==> IsActivated(c, now)))
  {
  }

  // ----- the object -----

  /** The store of the client. Each method changes the fields first and takes the change back when it
      cannot be saved. */
  class ClientStore {
    var state: ClientState
    var saved: ClientState

    constructor (saved: ClientState, defaultUrl: string)
      ensures state == Opened(saved, defaultUrl) && this.saved == saved
      ensures saved.managerUrl != "" ==> state == saved
      ensures saved.managerUrl == "" ==> state == saved.(managerUrl := TrimSpace(defaultUrl))
    {
      this.saved := saved;
      state := if saved.managerUrl == "" then saved.(managerUrl := TrimSpace(defaultUrl)) else saved;
    }

    /** saveLocked; `writable` says whether the file can be written. */
    method SaveLocked(writable: bool) returns (ok: bool)
      modifies this`saved
      ensures ok == writable && saved == if writable then state else old(saved)
    {
      if writable {
        saved := state;
      }
      ok := writable;
    }

    method SaveActivation(url: string, deviceId: string, token: string, license: LicenseInfo, lease: Time,
                          checkedAt: Time, sealing: bool, writable: bool)
      returns (ok: bool)
      modifies this
      ensures var m := ActivationReply(url, deviceId, token, license, lease);
        && ok == (Complete(m) && sealing && writable)
        && state == (if ok then Received(old(state), m, checkedAt) else old(state))
        && saved == (if ok then state else old(saved))
      ensures var address := TrimSlashes(TrimSpace(url));
        && (ok <==> address != "" && deviceId != "" && token != "" && license.id != "" && sealing && writable)
        && (ok ==> state == ClientState(address, old(state).installationId, deviceId, Sealed(token), license,
                                        Some(lease), Some(checkedAt), ""))
    {
      var managerUrl := TrimSlashes(TrimSpace(url));
      if managerUrl == "" || deviceId == "" || token == "" || license.id == "" {
        return false;
      }
      if !sealing {
        return false;
      }
      var before := state;
      state := state.(managerUrl := managerUrl);
      state := state.(deviceId := deviceId);
      state := state.(token := Sealed(token));
      state := state.(license := license);
      state := state.(lease := Some(lease));
      state := state.(checkedAt := Some(checkedAt));
      state := state.(lastError := "");
      ok := SaveLocked(writable);
      if !ok {
        state := before;
      }
    }

    method SaveHeartbeat(license: LicenseInfo, lease: Time, checkedAt: Time, writable: bool) returns (ok: bool)
      modifies this
      ensures ok == writable
      ensures state == if ok then Received(old(state), HeartbeatReply(license, lease), checkedAt) else old(state)
      ensures ok ==> var s := old(state);
                state == ClientState(s.managerUrl, s.installationId, s.deviceId, s.token, license, Some(lease),
                                     Some(checkedAt), "")
      ensures saved == if ok then state else old(saved)
    {
      var before := state;
      state := state.(license := license);
      state := state.(lease := Some(lease));
      state := state.(checkedAt := Some(checkedAt));
      state := state.(lastError := "");
      ok := SaveLocked(writable);
      if !ok {
        state := before;
      }
    }

    method MarkRemoteStatus(status: string, message: string, checkedAt: Time, writable: bool) returns (ok: bool)
      modifies this
      ensures ok == writable
      ensures state == if ok then Received(old(state), RemoteError(status, message), checkedAt) else old(state)
      ensures ok ==> var s := old(state);
                state == ClientState(s.managerUrl, s.installationId, s.deviceId, s.token,
                                     LicenseInfo(s.license.id, if status != "" then status else s.license.status,
                                                 s.license.expiresAt),
                                     s.lease, Some(checkedAt), message)
      ensures saved == if ok then state else old(saved)
    {
      var before := state;
      if status != "" {
        state := state.(license := state.license.(status := status));
      }
      state := state.(lastError := message);
      state := state.(checkedAt := Some(checkedAt));
      ok := SaveLocked(writable);
      if !ok {
        state := before;
      }
    }

    method Status(now: Time) returns (r: Report)
      ensures r.activated == IsActivated(state, now)
      ensures r.activated <==>
                && r.deviceId != "" && state.token.Sealed? && r.license.status == "active"
                && r.lease.Some? && now < r.lease.value
                && (r.license.expiresAt.None? || now < r.license.expiresAt.value)
      ensures state == ClientState(r.managerUrl, r.installationId, r.deviceId, state.token, r.license, r.lease,
                                   r.checkedAt, r.lastError)
    {
      var activated := state.deviceId != "" && state.token != Nothing && state.license.status == "active";
      if state.lease.None? || now >= state.lease.value {
        activated := false;
      }
      if state.license.expiresAt.Some? && now >= state.license.expiresAt.value {
        activated := false;
      }
      return Report(state.managerUrl, state.installationId, activated, state.deviceId, state.license, state.lease,
                    state.checkedAt, state.lastError);
    }
  }
}
