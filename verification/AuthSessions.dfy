/** What logins and updates are for: the password that works is that of the latest update, and a session that was
    let in works until it is ended. */
module AuthSessions {
  import opened Prelude
  import opened LocalAuth
  import opened AuthProtocol

  // ----- which password works -----

  /** New credentials are checked before an update waits for the lock. */
  lemma {:induction false} PendingIsAcceptable(worlds: seq<World>, steps: seq<Step>, o: Options, i: nat, id: nat)
    requires AuthRun(worlds, steps, o) && i < |worlds| && id in worlds[i].pending
    ensures AccountOk(worlds[i].pending[id].next)
  {
    hide AuthRun, Next, AccountOk;
    if i == 0 {
      NothingPending(worlds, steps, o);
    } else {
      StepAt(worlds, steps, o, i - 1);
      PendingStep(worlds[i - 1], steps[i - 1], o, worlds[i], id);
      if id in worlds[i - 1].pending && worlds[i].pending[id] == worlds[i - 1].pending[id] {
        PendingIsAcceptable(worlds, steps, o, i - 1, id);
      }
    }
  }

  lemma NothingPending(worlds: seq<World>, steps: seq<Step>, o: Options)
    requires AuthRun(worlds, steps, o)
    ensures worlds[0].pending == map[]
  {
    hide Next;
  }

  lemma PendingStep(w: World, step: Step, o: Options, w': World, id: nat)
    requires Next(w, step, o, w') && id in w'.pending
    ensures (id in w.pending && w'.pending[id] == w.pending[id]) || AccountOk(w'.pending[id].next)
  {
    hide Admits, AccountOk, Live, Verifies;
  }

  /** Only updates change the account. */
  lemma CredentialStep(w: World, step: Step, o: Options, w': World)
    requires Next(w, step, o, w')
    ensures if Updates(w, step) then
              && w'.auth.credential == w.pending[step.id].next && w'.auth.sessions == map[]
            else w'.auth.credential == w.auth.credential && w'.auth.generation == w.auth.generation
  {
    hide Verifies, AccountOk, Evicts, Pruned;
  }

  /** No update takes effect in steps `i` to `j`, the latter not included. */
  ghost predicate NoUpdates(worlds: seq<World>, steps: seq<Step>, i: nat, j: nat)
    requires j <= |steps| && |worlds| == |steps| + 1
  {
    forall k :: i <= k < j ==> !Updates(worlds[k], steps[k])
  }

  lemma {:induction false} AccountStays(worlds: seq<World>, steps: seq<Step>, o: Options, i: nat, j: nat)
    requires AuthRun(worlds, steps, o) && i <= j < |worlds| && NoUpdates(worlds, steps, i, j)
    ensures worlds[j].auth.credential == worlds[i].auth.credential
    ensures worlds[j].auth.generation == worlds[i].auth.generation
    decreases j
  {
    hide Next, Updates;
    if i < j {
      AccountStays(worlds, steps, o, i, j - 1);
      StepAt(worlds, steps, o, j - 1);
      CredentialStep(worlds[j - 1], steps[j - 1], o, worlds[j]);
    }
  }

  lemma LoginBegins(w: World, id: nat, username: string, password: string, o: Options, w': World)
    requires Next(w, BeginLogin(id, username, password), o, w') && AccountOk(w.auth.credential)
    ensures id in w'.logins <==> username == w.auth.credential.username && password == w.auth.credential.password
  {
  }

  /** After a successful update, and until the next one, a login goes through its check if and only if it gives the
      new name and the new password. */
  lemma LoginAfterUpdate(worlds: seq<World>, steps: seq<Step>, o: Options, i: nat, j: nat)
    requires AuthRun(worlds, steps, o) && i < j < |steps| && Updates(worlds[i], steps[i])
    requires NoUpdates(worlds, steps, i + 1, j) && steps[j].BeginLogin?
    ensures var next := worlds[i].pending[steps[i].id].next;
      steps[j].id in worlds[j + 1].logins <==> steps[j].username == next.username && steps[j].password == next.password
  {
    StepAt(worlds, steps, o, i);
    StepAt(worlds, steps, o, j);
    PendingIsAcceptable(worlds, steps, o, i, steps[i].id);
    hide AuthRun, Next, AccountOk, NoUpdates;
    CredentialStep(worlds[i], steps[i], o, worlds[i + 1]);
    StepCount(worlds, steps, o);
    AccountStays(worlds, steps, o, i + 1, j);
    LoginBegins(worlds[j], steps[j].id, steps[j].username, steps[j].password, o, worlds[j + 1]);
  }

  lemma StepCount(worlds: seq<World>, steps: seq<Step>, o: Options)
    requires AuthRun(worlds, steps, o)
    ensures |worlds| == |steps| + 1
  {
    hide Next;
  }

  // ----- a login leads to a session -----

  /** The session is stored under the current name. */
  predicate Holds(a: Auth, token: string, expiresAt: Time) {
    token in a.sessions && a.sessions[token] == Session(a.credential.username, expiresAt)
  }

  /** The token is accepted before that time, and not from then on. */
  ghost predicate WorksUntil(a: Auth, token: string, expiresAt: Time) {
    forall t: Time :: Live(a, token, t) <==> t < expiresAt
  }

  lemma HeldWorks(a: Auth, token: string, expiresAt: Time)
    requires Holds(a, token, expiresAt)
    ensures WorksUntil(a, token, expiresAt)
  {
  }

  lemma {:induction false} LoginWaits(worlds: seq<World>, steps: seq<Step>, o: Options, j: nat, m: nat, id: nat)
    requires AuthRun(worlds, steps, o) && j < m < |worlds|
    requires steps[j].BeginLogin? && steps[j].id == id && id in worlds[j + 1].logins
    requires forall k :: j < k < m ==> !(steps[k].FinishLogin? && steps[k].id == id)
    ensures id in worlds[m].logins && worlds[m].logins[id] == Pending(worlds[j])
    decreases m
  {
    hide Next, Pending;
    if m == j + 1 {
      StepAt(worlds, steps, o, j);
      BegunLogin(worlds[j], steps[j], o, worlds[m]);
    } else {
      LoginWaits(worlds, steps, o, j, m - 1, id);
      StepAt(worlds, steps, o, m - 1);
      OtherLogins(worlds[m - 1], steps[m - 1], o, worlds[m], id);
    }
  }

  lemma BegunLogin(w: World, step: Step, o: Options, w': World)
    requires Next(w, step, o, w') && step.BeginLogin? && step.id in w'.logins
    ensures w'.logins[step.id] == Pending(w)
  {
    hide Verifies;
  }

  lemma OtherLogins(w: World, step: Step, o: Options, w': World, id: nat)
    requires Next(w, step, o, w') && id in w.logins && !(step.FinishLogin? && step.id == id)
    ensures id in w'.logins && w'.logins[id] == w.logins[id]
  {
    hide Verifies, Admits, AccountOk, Live, Pending;
  }

  lemma FinishHolds(w: World, id: nat, token: string, now: Time, o: Options, w': World)
    requires Next(w, FinishLogin(id, Some(token), now), o, w') && id in w.logins
    requires w.logins[id].snapshot == Snapshot(w.auth.credential, w.auth.generation)
    ensures Accepted(w, FinishLogin(id, Some(token), now)) && Holds(w'.auth, token, now + o.ttl)
  {
    hide Evicts, Pruned;
  }

  /** A login that passed its check, and during which no update took effect, ends with a session that works exactly
      until its time is up. */
  lemma LoginLeadsToSession(worlds: seq<World>, steps: seq<Step>, o: Options, j: nat, m: nat, id: nat, token: string,
                            now: Time)
    requires AuthRun(worlds, steps, o) && j < m < |steps|
    requires steps[j].BeginLogin? && steps[j].id == id && id in worlds[j + 1].logins
    requires forall k :: j < k < m ==> !(steps[k].FinishLogin? && steps[k].id == id)
    requires NoUpdates(worlds, steps, j, m) && steps[m] == FinishLogin(id, Some(token), now)
    ensures Accepted(worlds[m], steps[m]) && Holds(worlds[m + 1].auth, token, now + o.ttl)
    ensures WorksUntil(worlds[m + 1].auth, token, now + o.ttl)
  {
    StepCount(worlds, steps, o);
    LoginWaits(worlds, steps, o, j, m, id);
    StepAt(worlds, steps, o, m);
    AccountStays(worlds, steps, o, j, m);
    hide AuthRun, Next, NoUpdates, Accepted;
    FinishHolds(worlds[m], id, token, now, o, worlds[m + 1]);
    HeldWorks(worlds[m + 1].auth, token, now + o.ttl);
  }

  // ----- a session lasts -----

  /** The step does not end a session: it is no update or logout that would, it does not find the session expired,
      and it lets nobody in who would need its place. */
  predicate Spares(w: World, step: Step, o: Options, token: string, expiresAt: Time) {
    && !Updates(w, step) && step != Revoke(token) && step != RevokeAll
    && (step.Expire? && step.token == token ==> step.now < expiresAt)
    && (step.FinishUpdate? && step.id in w.pending && w.pending[step.id].token == token ==> step.now < expiresAt)
    && (Accepted(w, step) ==>
          step.now < expiresAt && |w.auth.sessions| < o.maxSessions && step.drawn.value != token)
  }

  lemma AdmitSpares(a: Auth, snapshot: Snapshot, other: string, now: Time, o: Options, ok: bool, a': Auth,
                    token: string, expiresAt: Time)
    requires Admits(a, snapshot, other, now, o, ok, a') && Holds(a, token, expiresAt) && other != token
    requires ok ==> now < expiresAt && |a.sessions| < o.maxSessions
    ensures Holds(a', token, expiresAt)
  {
    if ok {
      var kept :| && Evicts(Pruned(a.sessions, now), o.maxSessions, kept)
                  && a' == a.(sessions := kept[other := Session(snapshot.record.username, now + o.ttl)]);
      PrunedIsSmaller(a.sessions, now);
      RoomKeepsAll(Pruned(a.sessions, now), o.maxSessions, kept);
    }
  }

  lemma PrunedIsSmaller(sessions: map<string, Session>, now: Time)
    ensures |Pruned(sessions, now)| <= |sessions|
  {
    SubsetSize(Pruned(sessions, now).Keys, sessions.Keys);
  }

  /** With room for one more nobody is evicted. */
  lemma RoomKeepsAll(before: map<string, Session>, max: nat, after: map<string, Session>)
    requires Evicts(before, max, after) && |before| < max
    ensures after == before
  {
    var lost := before.Keys - after.Keys;
    assert before.Keys == after.Keys + lost;
    assert |before.Keys| == |after.Keys| + |lost|;
    assert lost == {};
  }

  lemma SparedStep(w: World, step: Step, o: Options, w': World, token: string, expiresAt: Time)
    requires Next(w, step, o, w') && Holds(w.auth, token, expiresAt) && Spares(w, step, o, token, expiresAt)
    requires token in w.issued
    ensures Holds(w'.auth, token, expiresAt)
  {
    hide Verifies, AccountOk, Admits;
    if step.FinishLogin? && step.drawn.Some? {
      AdmitSpares(w.auth, w.logins[step.id].snapshot, step.drawn.value, step.now, o, Accepted(w, step), w'.auth, token,
                  expiresAt);
    }
  }

  /** A session works, until its time is up, for as long as no step ends it. */
  lemma {:induction false} SessionLasts(worlds: seq<World>, steps: seq<Step>, o: Options, m: nat, n: nat,
                                        token: string, expiresAt: Time)
    requires AuthRun(worlds, steps, o) && m <= n < |worlds| && Holds(worlds[m].auth, token, expiresAt)
    requires forall k :: m <= k < n ==> Spares(worlds[k], steps[k], o, token, expiresAt)
    ensures Holds(worlds[n].auth, token, expiresAt)
    ensures WorksUntil(worlds[n].auth, token, expiresAt)
    decreases n
  {
    hide Next, Spares;
    if m < n {
      SessionLasts(worlds, steps, o, m, n - 1, token, expiresAt);
      StepAt(worlds, steps, o, n - 1);
      SessionsAreCurrent(worlds, steps, o, n - 1, token);
      SparedStep(worlds[n - 1], steps[n - 1], o, worlds[n], token, expiresAt);
    }
    HeldWorks(worlds[n].auth, token, expiresAt);
  }
}
