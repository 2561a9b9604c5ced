/** The local account and its web sessions: what each critical section does, and the object that does it. */
module LocalAuth {
  import opened Prelude
  import opened Text

  type Time = nat

  const MAX_USERNAME_BYTES := 256
  const MAX_PASSWORD_BYTES := 4096

  /** The generation counter is a uint64. */
  const WRAP: nat := 0x1_0000_0000_0000_0000

  /** Password hashing is kept as what it checks. */
  datatype Credential = Credential(username: string, password: string, mustChange: bool)

  /** A session; its key stands for the digest of its token. */
  datatype Session = Session(username: string, expiresAt: Time)

  datatype Auth = Auth(credential: Credential, generation: nat, sessions: map<string, Session>)

  datatype Error = InvalidCredentials | InvalidSession | InvalidAccount | RandomFailed | NotSaved

  /** A credential together with the generation it was read in. */
  datatype Snapshot = Snapshot(record: Credential, generation: nat)

  /** What a login returns, and what a session is validated as. */
  datatype NewSession = NewSession(token: string, username: string, mustChange: bool, expiresAt: Time)

  datatype Principal = Principal(username: string, mustChange: bool, expiresAt: Time)

  datatype Options = Options(ttl: Time, maxSessions: nat)

  predicate OptionsOk(o: Options) {
    o.ttl > 0 && o.maxSessions > 0
  }

  predicate Verifies(c: Credential, username: string, password: string) {
    && ByteLength(username) <= MAX_USERNAME_BYTES && ByteLength(password) <= MAX_PASSWORD_BYTES
    && username == c.username && password == c.password
  }

  predicate AccountOk(c: Credential) {
    && c.username != "" && ByteLength(c.username) <= MAX_USERNAME_BYTES
    && c.password != "" && ByteLength(c.password) <= MAX_PASSWORD_BYTES
  }

  // ----- what the critical sections do -----

  function Pruned(sessions: map<string, Session>, now: Time): map<string, Session> {
    map t | t in sessions && now < sessions[t].expiresAt :: sessions[t]
  }

  /** Sessions that expire first go first, until there is room for one more; ties are broken arbitrarily. */
  ghost predicate Evicts(before: map<string, Session>, max: nat, after: map<string, Session>) {
    && after.Keys <= before.Keys && (forall t <- after :: after[t] == before[t])
    && |after| == (if |before| < max then |before| else max - 1)
    && forall a, b :: a in after && b in before && b !in after ==> before[b].expiresAt <= before[a].expiresAt
  }

  /** The second half of Login: the snapshot must be of the current generation. */
  ghost predicate Admits(a: Auth, snapshot: Snapshot, token: string, now: Time, o: Options, ok: bool, a': Auth) {
    && ok == (a.generation == snapshot.generation)
    && (!ok ==> a' == a)
    && (ok ==> exists kept ::
                 && Evicts(Pruned(a.sessions, now), o.maxSessions, kept)
                 && a' == a.(sessions := kept[token := Session(snapshot.record.username, now + o.ttl)]))
  }

  predicate Live(a: Auth, token: string, now: Time) {
    token in a.sessions && now < a.sessions[token].expiresAt && a.sessions[token].username == a.credential.username
  }

  function Without(a: Auth, token: string): Auth {
    a.(sessions := a.sessions - {token})
  }

  function DropExpired(a: Auth, token: string, now: Time): Auth {
    if token in a.sessions && now >= a.sessions[token].expiresAt then Without(a, token) else a
  }

  /** The second half of UpdateCredentials. */
  function Replaced(a: Auth, token: string, next: Credential, now: Time, saved: bool): (Option<Error>, Auth) {
    if !Live(a, token, now) then (Some(InvalidSession), DropExpired(a, token, now))
    else if !saved then (Some(NotSaved), a)
    else (None, Auth(next, (a.generation + 1) % WRAP, map[]))
  }

  // ----- the object -----

  class Store {
    var credential: Credential
    var generation: nat
    var sessions: map<string, Session>
    const options: Options

    constructor (credential: Credential, options: Options)
      ensures View() == Auth(credential, 1, map[]) && this.options == options
    {
      this.credential, generation, sessions := credential, 1, map[];
      this.options := options;
    }

    ghost function View(): Auth
      reads this
    {
      Auth(credential, generation, sessions)
    }

    /** pruneExpiredLocked. */
    method PruneExpired(now: Time)
      modifies this`sessions
      ensures sessions == Pruned(old(sessions), now)
    {
      var todo := sessions.Keys;
      while todo != {}
        invariant todo <= sessions.Keys <= old(sessions).Keys
        invariant forall t <- old(sessions) :: t !in todo ==> (t in sessions <==> now < old(sessions)[t].expiresAt)
        invariant forall t <- sessions :: sessions[t] == old(sessions)[t]
        invariant forall t <- old(sessions) :: t in todo ==> t in sessions
        decreases todo
      {
        var t :| t in todo;
        if now >= sessions[t].expiresAt {
          sessions := sessions - {t};
        }
        todo := todo - {t};
      }
    }

    /** The inner loop of evictSessionsLocked: a session that no other one expires before. */
    method Oldest() returns (oldest: string)
      requires sessions != map[]
      ensures oldest in sessions && forall t <- sessions :: sessions[oldest].expiresAt <= sessions[t].expiresAt
    {
      var first := true;
      oldest := "";
      var expiry := 0;
      var todo := sessions.Keys;
      while todo != {}
        invariant todo <= sessions.Keys && (first <==> todo == sessions.Keys)
        invariant !first ==> oldest in sessions && expiry == sessions[oldest].expiresAt
        invariant forall t <- sessions :: t !in todo ==> !first && expiry <= sessions[t].expiresAt
        decreases todo
      {
        var t :| t in todo;
        if first || sessions[t].expiresAt < expiry {
          oldest, expiry, first := t, sessions[t].expiresAt, false;
        }
        todo := todo - {t};
      }
      assert sessions.Keys != {};
    }

    /** evictSessionsLocked. */
    method EvictSessions()
      requires OptionsOk(options)
      modifies this`sessions
      ensures Evicts(old(sessions), options.maxSessions, sessions)
    {
      while |sessions| >= options.maxSessions
        invariant sessions.Keys <= old(sessions).Keys && forall t <- sessions :: sessions[t] == old(sessions)[t]
        invariant |sessions| == |old(sessions)| || |sessions| >= options.maxSessions - 1
        invariant |old(sessions)| < options.maxSessions ==> sessions == old(sessions)
        invariant forall a, b :: a in sessions && b in old(sessions) && b !in sessions ==>
                    old(sessions)[b].expiresAt <= old(sessions)[a].expiresAt
        decreases |sessions|
      {
        var oldest := Oldest();
        ghost var before := sessions;
        sessions := sessions - {oldest};
        assert sessions.Keys == before.Keys - {oldest};
      }
    }

    /** The first half of Login. */
    method CredentialSnapshot() returns (s: Snapshot)
      ensures s == Snapshot(credential, generation)
    {
      s := Snapshot(credential, generation);
    }

    /** The second half of Login, under the lock. */
    method Admit(snapshot: Snapshot, token: string, now: Time) returns (ok: bool)
      requires OptionsOk(options)
      modifies this`sessions
      ensures Admits(old(View()), snapshot, token, now, options, ok, View())
    {
      if generation != snapshot.generation {
        return false;
      }
      PruneExpired(now);
      EvictSessions();
      ghost var kept := sessions;
      sessions := sessions[token := Session(snapshot.record.username, now + options.ttl)];
      assert Evicts(Pruned(old(sessions), now), options.maxSessions, kept);
      ok := true;
    }

    /** Login without anything in between its halves. */
    method Login(username: string, password: string, token: Option<string>, now: Time)
      returns (r: Result<NewSession, Error>)
      requires OptionsOk(options)
      modifies this`sessions
      ensures r == if !Verifies(old(credential), username, password) then Err(InvalidCredentials)
                   else if token.None? then Err(RandomFailed)
                   else Ok(NewSession(token.value, old(credential).username, old(credential).mustChange,
                                      now + options.ttl))
      ensures r.Ok? <==>
                && username == old(credential).username && password == old(credential).password && token.Some?
                && ByteLength(username) <= 256 && ByteLength(password) <= 4096
      ensures r.Err? ==> View() == old(View())
      ensures r.Ok? ==>
                Admits(old(View()), Snapshot(old(credential), old(generation)), r.value.token, now, options, true,
                       View())
    {
      var snapshot := CredentialSnapshot();
      if !Verifies(snapshot.record, username, password) {
        return Err(InvalidCredentials);
      }
      if token.None? {
        return Err(RandomFailed);
      }
      var ok := Admit(snapshot, token.value, now);
      return Ok(NewSession(token.value, snapshot.record.username, snapshot.record.mustChange, now + options.ttl));
    }

    /** ValidateSession: an expired session is removed. */
    method ValidateSession(token: string, now: Time) returns (r: Option<Principal>)
      modifies this`sessions
      ensures r.Some? <==> token != "" && Live(old(View()), token, now)
      ensures r.Some? <==>
                && token != "" && token in old(sessions) && now < old(sessions)[token].expiresAt
                && old(sessions)[token].username == credential.username
      ensures r.Some? ==>
                r.value == Principal(credential.username, credential.mustChange, old(sessions)[token].expiresAt)
      ensures View() == if token != "" then DropExpired(old(View()), token, now) else old(View())
    {
      if token == "" {
        return None;
      }
      if token !in sessions {
        return None;
      }
      if now >= sessions[token].expiresAt {
        sessions := sessions - {token};
        return None;
      }
      if sessions[token].username != credential.username {
        return None;
      }
      return Some(Principal(credential.username, credential.mustChange, sessions[token].expiresAt));
    }

    /** The second half of UpdateCredentials, under the lock. */
    method Replace(token: string, next: Credential, now: Time, saved: bool) returns (error: Option<Error>)
      modifies this
      ensures (error, View()) == Replaced(old(View()), token, next, now, saved)
      ensures error.None? <==>
                && saved && token in old(sessions) && now < old(sessions)[token].expiresAt
                && old(sessions)[token].username == old(credential).username
      ensures error.None? ==> credential == next && sessions == map[]
      ensures error.Some? ==> credential == old(credential) && generation == old(generation)
      ensures error.None? && AccountOk(next) ==>
                forall u, p :: Verifies(credential, u, p) <==> u == next.username && p == next.password
    {
      if token !in sessions || now >= sessions[token].expiresAt || sessions[token].username != credential.username {
        if token in sessions && now >= sessions[token].expiresAt {
          sessions := sessions - {token};
        }
        return Some(InvalidSession);
      }
      if !saved {
        return Some(NotSaved);
      }
      credential := next;
      generation := (generation + 1) % WRAP;
      sessions := map[];
      return None;
    }

    method RevokeSession(token: string) returns (existed: bool)
      modifies this`sessions
      ensures existed == (token != "" && token in old(sessions))
      ensures View() == if token == "" then old(View()) else Without(old(View()), token)
    {
      if token == "" {
        return false;
      }
      existed := token in sessions;
      sessions := sessions - {token};
    }

    method RevokeAllSessions()
      modifies this`sessions
      ensures View() == old(View()).(sessions := map[])
    {
      sessions := map[];
    }
  }
}
