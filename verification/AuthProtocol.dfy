/** Logins and credential updates are two-phase: each reads the account, works without the lock, and takes it
    again. Runs interleave any number of them with each other and with logouts. */
module AuthProtocol {
  import opened Prelude
  import opened LocalAuth

  /** A login between its halves; `count` is how many updates there had been. */
  datatype PendingLogin = PendingLogin(snapshot: Snapshot, count: nat)

  datatype PendingUpdate = PendingUpdate(token: string, next: Credential)

  /** The account, the operations in flight, and the history: when each token was issued, and the tokens of the
      successful updates in order. */
  datatype World = World(
    auth: Auth, logins: map<nat, PendingLogin>, pending: map<nat, PendingUpdate>,
    issued: map<string, nat>, updates: seq<string>)

  datatype Step =
    | BeginLogin(id: nat, username: string, password: string)
    | FinishLogin(id: nat, drawn: Option<string>, now: Time)
    | Expire(token: string, now: Time)
    | BeginUpdate(id: nat, token: string, next: Credential, now: Time)
    | FinishUpdate(id: nat, now: Time, saved: bool)
    | Revoke(token: string)
    | RevokeAll

  /** The login is let in. */
  predicate Accepted(w: World, step: Step) {
    && step.FinishLogin? && step.id in w.logins && step.drawn.Some?
    && w.auth.generation == w.logins[step.id].snapshot.generation
  }

  /** The update takes effect. */
  predicate Updates(w: World, step: Step) {
    && step.FinishUpdate? && step.id in w.pending && step.saved
    && Live(w.auth, w.pending[step.id].token, step.now)
  }

  /** A login that begins now. */
  function Pending(w: World): PendingLogin {
    PendingLogin(Snapshot(w.auth.credential, w.auth.generation), |w.updates|)
  }

  /** One step; tokens are random and never repeat. */
  ghost predicate Next(w: World, step: Step, o: Options, w': World) {
    match step
    case BeginLogin(id, username, password) =>
      && id !in w.logins
      && w' == if Verifies(w.auth.credential, username, password)
               then w.(logins := w.logins[id := Pending(w)])
               else w
    case FinishLogin(id, token, now) =>
      && id in w.logins
      && (token.None? ==> w' == w.(logins := w.logins - {id}))
      && (token.Some? ==>
            && token.value != "" && token.value !in w.issued
            && Admits(w.auth, w.logins[id].snapshot, token.value, now, o, Accepted(w, step), w'.auth)
            && w' == w.(auth := w'.auth, logins := w.logins - {id},
                        issued := if Accepted(w, step) then w.issued[token.value := |w.updates|] else w.issued))
    case Expire(token, now) => w' == w.(auth := DropExpired(w.auth, token, now))
    case BeginUpdate(id, token, next, now) =>
      && id !in w.pending
      && w' == if token != "" && Live(w.auth, token, now) && AccountOk(next)
               then w.(pending := w.pending[id := PendingUpdate(token, next)]) else w
    case FinishUpdate(id, now, saved) =>
      && id in w.pending
      && var u := w.pending[id];
      w' == w.(auth := Replaced(w.auth, u.token, u.next, now, saved).1, pending := w.pending - {id},
               updates := if Updates(w, step) then w.updates + [u.token] else w.updates)
    case Revoke(token) => w' == w.(auth := Without(w.auth, token))
    case RevokeAll => w' == w.(auth := w.auth.(sessions := map[]))
  }

  ghost predicate AuthRun(worlds: seq<World>, steps: seq<Step>, o: Options) {
    && OptionsOk(o) && |worlds| == |steps| + 1
    && (exists c :: worlds[0] == World(Auth(c, 1, map[]), map[], map[], map[], []))
    && forall i :: 0 <= i < |steps| ==> Next(worlds[i], steps[i], o, worlds[i + 1])
  }

  // ----- the invariant -----

  /** The generation counts the updates, as far as 64 bits go. */
  predicate GenerationAt(count: nat, generation: nat) {
    generation == (1 + count) % WRAP
  }

  ghost predicate SessionsOk(w: World, o: Options) {
    && |w.auth.sessions| <= o.maxSessions
    && (forall t <- w.auth.sessions :: t in w.issued && w.issued[t] == |w.updates| && t !in w.updates)
    && (|w.updates| < WRAP ==>
          forall t <- w.auth.sessions :: w.auth.sessions[t].username == w.auth.credential.username)
  }

  ghost predicate LoginsOk(w: World) {
    forall id <- w.logins ::
      && w.logins[id].count <= |w.updates|
      && GenerationAt(w.logins[id].count, w.logins[id].snapshot.generation)
      && (w.logins[id].count == |w.updates| ==> w.logins[id].snapshot.record == w.auth.credential)
  }

  ghost predicate HistoryOk(w: World) {
    && NoDuplicates(w.updates) && (forall t <- w.updates :: t in w.issued)
    && GenerationAt(|w.updates|, w.auth.generation)
  }

  ghost predicate WorldOk(w: World, o: Options) {
    SessionsOk(w, o) && LoginsOk(w) && HistoryOk(w)
  }

  /** Generations agree exactly if the number of updates between them is a multiple of 2^64. */
  lemma GenerationsAgree(a: nat, b: nat, ga: nat, gb: nat)
    requires a <= b && GenerationAt(a, ga) && GenerationAt(b, gb)
    ensures ga == gb <==> (b - a) % WRAP == 0
  {
    var x, y := 1 + a, 1 + b;
    assert x == x / WRAP * WRAP + x % WRAP && y == y / WRAP * WRAP + y % WRAP;
    var d := y / WRAP - x / WRAP;
    assert y - x == d * WRAP + (gb - ga);
    assert (d * WRAP + (gb - ga)) % WRAP == (gb - ga) % WRAP by { Multiple(d, gb - ga); }
  }

  lemma Multiple(d: int, r: int)
    ensures (d * WRAP + r) % WRAP == r % WRAP
  {
  }

  lemma NextGeneration(count: nat, generation: nat)
    requires GenerationAt(count, generation)
    ensures GenerationAt(count + 1, (generation + 1) % WRAP)
  {
  }

  /** What an admission leaves: fewer old sessions than the limit, and the new one. */
  lemma AdmitShape(a: Auth, snapshot: Snapshot, token: string, now: Time, o: Options, a': Auth)
    returns (kept: map<string, Session>)
    requires Admits(a, snapshot, token, now, o, true, a') && OptionsOk(o)
    ensures |kept| <= o.maxSessions - 1 && kept.Keys <= a.sessions.Keys
    ensures forall t <- kept :: kept[t] == a.sessions[t]
    ensures a' == a.(sessions := kept[token := Session(snapshot.record.username, now + o.ttl)])
  {
    var pruned := Pruned(a.sessions, now);
    kept :| Evicts(pruned, o.maxSessions, kept)
         && a' == a.(sessions := kept[token := Session(snapshot.record.username, now + o.ttl)]);
  }

  lemma SmallMultiple(d: nat)
    requires d < WRAP && d % WRAP == 0
    ensures d == 0
  {
  }

  /** A session admitted under the current generation. */
  lemma AdmitKeeps(w: World, id: nat, token: string, now: Time, o: Options, w': World)
    requires WorldOk(w, o) && OptionsOk(o) && Next(w, FinishLogin(id, Some(token), now), o, w')
    requires Accepted(w, FinishLogin(id, Some(token), now))
    ensures SessionsOk(w', o)
  {
    var snapshot := w.logins[id].snapshot;
    var kept := AdmitShape(w.auth, snapshot, token, now, o, w'.auth);
    CurrentRecord(w, id);
    NewToken(w, token);
    assert w' == w.(auth := w'.auth, logins := w.logins - {id}, issued := w.issued[token := |w.updates|]);
    hide Admits, GenerationAt, Next, LoginsOk, HistoryOk, Accepted;
    SessionAdded(w, kept, token, Session(snapshot.record.username, now + o.ttl), o);
  }

  lemma SessionAdded(w: World, kept: map<string, Session>, token: string, session: Session, o: Options)
    requires SessionsOk(w, o) && |kept| <= o.maxSessions - 1 && kept.Keys <= w.auth.sessions.Keys
    requires (forall t <- kept :: kept[t] == w.auth.sessions[t]) && token !in w.updates
    requires |w.updates| < WRAP ==> session.username == w.auth.credential.username
    ensures SessionsOk(w.(auth := w.auth.(sessions := kept[token := session]),
                          issued := w.issued[token := |w.updates|]), o)
  {
    assert kept[token := session].Keys == kept.Keys + {token};
    assert |kept.Keys + {token}| <= |kept| + 1;
  }

  lemma CurrentRecord(w: World, id: nat)
    requires LoginsOk(w) && HistoryOk(w) && id in w.logins
    requires w.logins[id].snapshot.generation == w.auth.generation
    ensures |w.updates| < WRAP ==> w.logins[id].snapshot.record == w.auth.credential
  {
    GenerationsAgree(w.logins[id].count, |w.updates|, w.logins[id].snapshot.generation, w.auth.generation);
    if |w.updates| < WRAP {
      SmallMultiple(|w.updates| - w.logins[id].count);
    }
  }

  lemma NewToken(w: World, token: string)
    requires HistoryOk(w) && token !in w.issued
    ensures token !in w.updates
  {
  }

  lemma NextKeeps(w: World, step: Step, o: Options, w': World)
    requires WorldOk(w, o) && OptionsOk(o) && Next(w, step, o, w')
    ensures WorldOk(w', o)
  {
    hide Admits, Live, Replaced, Verifies, AccountOk, WorldOk;
    match step
    case BeginLogin(id, _, _) => SnapshotKeeps(w, id, o);
    case FinishLogin(id, drawn, now) =>
      if Accepted(w, step) {
        AdmittedOk(w, id, drawn.value, now, o, w');
      } else {
        RefusedLogin(w, id, drawn, now, o, w');
      }
    case FinishUpdate(id, now, saved) => UpdateKeeps(w, id, now, saved, o, w');
    case Expire(token, now) => FewerKeeps(w, o, w');
    case BeginUpdate(_, _, _, _) => PendingIsFree(w, w'.pending, o);
    case Revoke(token) => FewerKeeps(w, o, w');
    case RevokeAll => FewerKeeps(w, o, w');
  }

  lemma AdmittedOk(w: World, id: nat, token: string, now: Time, o: Options, w': World)
    requires WorldOk(w, o) && OptionsOk(o) && Next(w, FinishLogin(id, Some(token), now), o, w')
    requires Accepted(w, FinishLogin(id, Some(token), now))
    ensures WorldOk(w', o)
  {
    hide SessionsOk, LoginsOk, HistoryOk, Next, Accepted;
    AdmitKeeps(w, id, token, now, o, w');
    AdmitRest(w, id, token, now, o, w');
  }

  /** A login reads the account. */
  lemma SnapshotKeeps(w: World, id: nat, o: Options)
    requires WorldOk(w, o)
    ensures WorldOk(w.(logins := w.logins[id := Pending(w)]), o)
  {
    hide GenerationAt;
  }

  lemma AdmitRest(w: World, id: nat, token: string, now: Time, o: Options, w': World)
    requires WorldOk(w, o) && OptionsOk(o) && Next(w, FinishLogin(id, Some(token), now), o, w')
    requires Accepted(w, FinishLogin(id, Some(token), now))
    ensures LoginsOk(w') && HistoryOk(w')
  {
    var kept := AdmitShape(w.auth, w.logins[id].snapshot, token, now, o, w'.auth);
    hide Admits, GenerationAt;
  }

  lemma RefusedLogin(w: World, id: nat, drawn: Option<string>, now: Time, o: Options, w': World)
    requires WorldOk(w, o) && Next(w, FinishLogin(id, drawn, now), o, w') && !Accepted(w, FinishLogin(id, drawn, now))
    ensures WorldOk(w', o)
  {
    assert w' == w.(logins := w.logins - {id});
    hide Admits, GenerationAt;
  }

  /** Removing sessions. */
  lemma FewerKeeps(w: World, o: Options, w': World)
    requires WorldOk(w, o) && w' == w.(auth := w.auth.(sessions := w'.auth.sessions))
    requires w'.auth.sessions.Keys <= w.auth.sessions.Keys
    requires forall t <- w'.auth.sessions :: w'.auth.sessions[t] == w.auth.sessions[t]
    ensures WorldOk(w', o)
  {
    hide GenerationAt;
    SubsetSize(w'.auth.sessions.Keys, w.auth.sessions.Keys);
  }

  lemma UpdateKeeps(w: World, id: nat, now: Time, saved: bool, o: Options, w': World)
    requires WorldOk(w, o) && Next(w, FinishUpdate(id, now, saved), o, w')
    ensures WorldOk(w', o)
  {
    hide GenerationAt, WorldOk;
    var u := w.pending[id];
    if Updates(w, FinishUpdate(id, now, saved)) {
      assert w' == w.(auth := Auth(u.next, (w.auth.generation + 1) % WRAP, map[]), pending := w.pending - {id},
                      updates := w.updates + [u.token]);
      UpdatedOk(w, u, w.pending - {id}, o);
    } else {
      PendingIsFree(w, w.pending - {id}, o);
      FewerKeeps(w.(pending := w.pending - {id}), o, w');
    }
  }

  lemma PendingIsFree(w: World, pending: map<nat, PendingUpdate>, o: Options)
    requires WorldOk(w, o)
    ensures WorldOk(w.(pending := pending), o)
  {
    hide GenerationAt;
  }

  lemma UpdatedOk(w: World, u: PendingUpdate, pending: map<nat, PendingUpdate>, o: Options)
    requires WorldOk(w, o) && u.token in w.auth.sessions
    ensures WorldOk(w.(auth := Auth(u.next, (w.auth.generation + 1) % WRAP, map[]), pending := pending,
                       updates := w.updates + [u.token]), o)
  {
    hide GenerationAt, SessionsOk, LoginsOk;
    NextGeneration(|w.updates|, w.auth.generation);
    assert u.token !in w.updates && u.token in w.issued by { UsedToken(w, u.token, o); }
    UpdatedLogins(w, u, pending);
    UpdatedSessions(w, u, pending, o);
  }

  lemma UsedToken(w: World, token: string, o: Options)
    requires SessionsOk(w, o) && token in w.auth.sessions
    ensures token in w.issued && token !in w.updates
  {
  }

  lemma UpdatedLogins(w: World, u: PendingUpdate, pending: map<nat, PendingUpdate>)
    requires LoginsOk(w)
    ensures LoginsOk(w.(auth := Auth(u.next, (w.auth.generation + 1) % WRAP, map[]), pending := pending,
                        updates := w.updates + [u.token]))
  {
    hide GenerationAt;
  }

  lemma UpdatedSessions(w: World, u: PendingUpdate, pending: map<nat, PendingUpdate>, o: Options)
    ensures SessionsOk(w.(auth := Auth(u.next, (w.auth.generation + 1) % WRAP, map[]), pending := pending,
                          updates := w.updates + [u.token]), o)
  {
  }

  lemma StepAt(worlds: seq<World>, steps: seq<Step>, o: Options, i: nat)
    requires AuthRun(worlds, steps, o) && i + 1 < |worlds|
    ensures i < |steps| && Next(worlds[i], steps[i], o, worlds[i + 1]) && OptionsOk(o)
  {
    hide Next;
  }

  lemma {:induction false} RunKeepsWorldOk(worlds: seq<World>, steps: seq<Step>, o: Options, i: nat)
    requires AuthRun(worlds, steps, o) && i < |worlds|
    ensures WorldOk(worlds[i], o)
  {
    hide Next;
    if i > 0 {
      RunKeepsWorldOk(worlds, steps, o, i - 1);
      NextKeeps(worlds[i - 1], steps[i - 1], o, worlds[i]);
    }
  }

  // ----- the guarantees -----

  /** A login is let in exactly if the number of updates since its snapshot is a multiple of 2^64. */
  lemma AcceptedIff(worlds: seq<World>, steps: seq<Step>, o: Options, i: nat)
    requires AuthRun(worlds, steps, o) && i < |steps| && steps[i].FinishLogin? && steps[i].drawn.Some?
    ensures steps[i].id in worlds[i].logins
    ensures worlds[i].logins[steps[i].id].count <= |worlds[i].updates|
    ensures Accepted(worlds[i], steps[i])
            <==> (|worlds[i].updates| - worlds[i].logins[steps[i].id].count) % WRAP == 0
  {
    RunKeepsWorldOk(worlds, steps, o, i);
    var w := worlds[i];
    assert Next(w, steps[i], o, worlds[i + 1]);
    var login := w.logins[steps[i].id];
    GenerationsAgree(login.count, |w.updates|, login.snapshot.generation, w.auth.generation);
  }

  /** With fewer than 2^64 updates, a login whose snapshot is older than a successful update never gets a session,
      and one that is let in was checked against the account as it is. */
  lemma NoStaleLogin(worlds: seq<World>, steps: seq<Step>, o: Options, i: nat)
    requires AuthRun(worlds, steps, o) && i < |steps| && |worlds[i].updates| < WRAP && Accepted(worlds[i], steps[i])
    ensures worlds[i].logins[steps[i].id].count == |worlds[i].updates|
    ensures worlds[i].logins[steps[i].id].snapshot.record == worlds[i].auth.credential
  {
    AcceptedIff(worlds, steps, o, i);
    RunKeepsWorldOk(worlds, steps, o, i);
    SmallMultiple(|worlds[i].updates| - worlds[i].logins[steps[i].id].count);
  }

  /** Every stored session was issued after the latest update and, with fewer than 2^64 updates, carries the
      current username; there are never more than the limit. */
  lemma SessionsAreCurrent(worlds: seq<World>, steps: seq<Step>, o: Options, i: nat, t: string)
    requires AuthRun(worlds, steps, o) && i < |worlds|
    ensures |worlds[i].auth.sessions| <= o.maxSessions
    ensures t in worlds[i].auth.sessions ==> t in worlds[i].issued && worlds[i].issued[t] == |worlds[i].updates|
    ensures t in worlds[i].auth.sessions && |worlds[i].updates| < WRAP ==>
              worlds[i].auth.sessions[t].username == worlds[i].auth.credential.username
  {
    hide AuthRun;
    RunKeepsWorldOk(worlds, steps, o, i);
  }

  /** No token supports two successful updates. */
  lemma OneUpdatePerToken(worlds: seq<World>, steps: seq<Step>, o: Options, i: nat, j: nat)
    requires AuthRun(worlds, steps, o) && i < j < |steps|
    requires Updates(worlds[i], steps[i]) && Updates(worlds[j], steps[j])
    ensures worlds[i].pending[steps[i].id].token != worlds[j].pending[steps[j].id].token
  {
    var t := worlds[i].pending[steps[i].id].token;
    assert Next(worlds[i], steps[i], o, worlds[i + 1]);
    assert worlds[i + 1].updates[|worlds[i].updates|] == t;
    RunKeepsWorldOk(worlds, steps, o, j);
    UpdatesGrow(worlds, steps, o, i + 1, j);
    hide AuthRun, Next;
    assert t in worlds[j].updates;
  }

  lemma {:induction false} UpdatesGrow(worlds: seq<World>, steps: seq<Step>, o: Options, i: nat, j: nat)
    requires AuthRun(worlds, steps, o) && i <= j < |worlds|
    ensures worlds[i].updates <= worlds[j].updates
    ensures worlds[i].issued.Keys <= worlds[j].issued.Keys
    decreases j
  {
    if i < j {
      UpdatesGrow(worlds, steps, o, i, j - 1);
      assert Next(worlds[j - 1], steps[j - 1], o, worlds[j]);
      hide Admits, Live;
    }
  }

  lemma NoNewLife(w: World, step: Step, o: Options, w': World, t: string)
    requires Next(w, step, o, w') && t in w.issued && t !in w.auth.sessions
    ensures t !in w'.auth.sessions
  {
  }

  /** A token that was issued and no longer works never works again. */
  lemma {:induction false} DeadTokensStayDead(worlds: seq<World>, steps: seq<Step>, o: Options, i: nat, j: nat,
                                              t: string)
    requires AuthRun(worlds, steps, o) && i <= j < |worlds|
    requires t in worlds[i].issued && t !in worlds[i].auth.sessions
    ensures t !in worlds[j].auth.sessions
    decreases j
  {
    hide AuthRun, Next;
    if i < j {
      DeadTokensStayDead(worlds, steps, o, i, j - 1, t);
      UpdatesGrow(worlds, steps, o, i, j - 1);
      StepAt(worlds, steps, o, j - 1);
      NoNewLife(worlds[j - 1], steps[j - 1], o, worlds[j], t);
    }
  }

  // ----- the bound is needed -----

  const OLD := Credential("old", "secret", false)
  const NEW := Credential("new", "secret", false)

  /** A different token for every number. */
  function TokenNumber(n: nat): string {
    seq(n + 1, _ => 'x')
  }

  /** An account whose first login is still between its halves after `n` updates. */
  ghost predicate Waiting(w: World, n: nat) {
    && w.auth.sessions == map[] && w.auth.credential == (if n == 0 then OLD else NEW) && |w.updates| == n
    && w.logins == map[0 := PendingLogin(Snapshot(OLD, 1), 0)] && w.pending == map[]
    && forall m: nat :: m >= n ==> TokenNumber(m) !in w.issued
  }

  lemma TokensDiffer(m: nat, n: nat)
    requires m < n
    ensures TokenNumber(m) != TokenNumber(n) && TokenNumber(m) != ""
  {
    assert |TokenNumber(m)| != |TokenNumber(n)|;
  }

  lemma ByteLengths()
    ensures Verifies(OLD, "old", "secret") && Verifies(NEW, "new", "secret") && AccountOk(NEW)
  {
  }

  /** A login into an account without sessions. */
  lemma FirstSession(a: Auth, snapshot: Snapshot, token: string, now: Time, o: Options)
    requires a.sessions == map[] && a.generation == snapshot.generation && OptionsOk(o)
    ensures Admits(a, snapshot, token, now, o, true,
                   a.(sessions := map[token := Session(snapshot.record.username, now + o.ttl)]))
  {
    assert Pruned(a.sessions, now) == map[];
    assert Evicts(map[], o.maxSessions, map[]);
    assert map[][token := Session(snapshot.record.username, now + o.ttl)]
           == map[token := Session(snapshot.record.username, now + o.ttl)];
  }

  /** A second login, from beginning to end. */
  lemma OneMoreLogin(w: World, n: nat, o: Options) returns (w0: World, w1: World)
    requires Waiting(w, n) && OptionsOk(o)
    ensures var c, token := w.auth.credential, TokenNumber(n);
      && Next(w, BeginLogin(1, c.username, c.password), o, w0) && Next(w0, FinishLogin(1, Some(token), 0), o, w1)
      && w1 == w.(auth := w.auth.(sessions := map[token := Session(c.username, 0 + o.ttl)]),
                  issued := w.issued[token := n])
  {
    hide Admits, TokenNumber, Verifies;
    var c, token := w.auth.credential, TokenNumber(n);
    ByteLengths();
    TokensDiffer(n, n + 1);
    w0 := w.(logins := w.logins[1 := PendingLogin(Snapshot(c, w.auth.generation), n)]);
    w1 := w.(auth := w.auth.(sessions := map[token := Session(c.username, 0 + o.ttl)]), issued := w.issued[token := n]);
    FirstSession(w.auth, Snapshot(c, w.auth.generation), token, 0, o);
    assert w0.logins - {1} == w.logins;
  }

  /** An update with the only session there is. */
  lemma UpdateAfterLogin(w1: World, token: string, o: Options) returns (w2: World, w3: World)
    requires w1.pending == map[] && OptionsOk(o) && token != ""
    requires w1.auth.sessions == map[token := Session(w1.auth.credential.username, 0 + o.ttl)]
    ensures Next(w1, BeginUpdate(0, token, NEW, 0), o, w2) && Next(w2, FinishUpdate(0, 0, true), o, w3)
    ensures w3 == w1.(auth := Auth(NEW, (w1.auth.generation + 1) % WRAP, map[]), updates := w1.updates + [token])
  {
    hide AccountOk;
    ByteLengths();
    w2 := w1.(pending := map[0 := PendingUpdate(token, NEW)]);
    w3 := w1.(auth := Auth(NEW, (w1.auth.generation + 1) % WRAP, map[]), updates := w1.updates + [token]);
    assert w2.pending - {0} == map[];
  }

  /** One more login and update, with a token that has not been used. */
  lemma OneMoreUpdate(w: World, n: nat, o: Options) returns (steps: seq<Step>, worlds: seq<World>)
    requires Waiting(w, n) && OptionsOk(o)
    ensures |steps| == 4 && |worlds| == 4 && Waiting(worlds[3], n + 1)
    ensures Next(w, steps[0], o, worlds[0])
    ensures forall i :: 0 <= i < 3 ==> Next(worlds[i], steps[i + 1], o, worlds[i + 1])
  {
    hide Next, TokenNumber;
    var c, token := w.auth.credential, TokenNumber(n);
    TokensDiffer(n, n + 1);
    var w0, w1 := OneMoreLogin(w, n, o);
    var w2, w3 := UpdateAfterLogin(w1, token, o);
    forall m: nat | m >= n + 1 ensures TokenNumber(m) !in w3.issued {
      TokensDiffer(n, m);
    }
    steps := [BeginLogin(1, c.username, c.password), FinishLogin(1, Some(token), 0),
              BeginUpdate(0, token, NEW, 0), FinishUpdate(0, 0, true)];
    worlds := [w0, w1, w2, w3];
  }

  /** A run with `n` updates during which one login waits. */
  lemma {:induction false} WaitingRun(n: nat, o: Options) returns (worlds: seq<World>, steps: seq<Step>)
    requires OptionsOk(o)
    ensures AuthRun(worlds, steps, o) && Waiting(worlds[|steps|], n)
    decreases n
  {
    if n == 0 {
      worlds, steps := WaitingStart(o);
    } else {
      worlds, steps := WaitingRun(n - 1, o);
      var more, next := OneMoreUpdate(worlds[|steps|], n - 1, o);
      Append(worlds, steps, next, more, o);
      worlds, steps := worlds + next, steps + more;
    }
  }

  lemma WaitingStart(o: Options) returns (worlds: seq<World>, steps: seq<Step>)
    requires OptionsOk(o)
    ensures AuthRun(worlds, steps, o) && Waiting(worlds[|steps|], 0)
  {
    hide TokenNumber, Verifies;
    ByteLengths();
    var w := World(Auth(OLD, 1, map[]), map[], map[], map[], []);
    var w' := w.(logins := map[0 := PendingLogin(Snapshot(OLD, 1), 0)]);
    worlds, steps := [w, w'], [BeginLogin(0, "old", "secret")];
    assert Next(w, BeginLogin(0, "old", "secret"), o, w');
  }

  /** A run and a continuation of it. */
  lemma Append(worlds: seq<World>, steps: seq<Step>, next: seq<World>, more: seq<Step>, o: Options)
    requires AuthRun(worlds, steps, o) && |next| == |more| > 0
    requires Next(worlds[|steps|], more[0], o, next[0])
    requires forall i :: 0 <= i < |more| - 1 ==> Next(next[i], more[i + 1], o, next[i + 1])
    ensures AuthRun(worlds + next, steps + more, o)
  {
    hide Next;
    var all, moves := worlds + next, steps + more;
    forall i | 0 <= i < |moves| ensures Next(all[i], moves[i], o, all[i + 1]) {
      if i > |steps| {
        var k := i - |steps| - 1;
        assert Next(next[k], more[k + 1], o, next[k + 1]);
      }
    }
  }

  /** With 2^64 updates the counter is back where it was: a login that waited through them all is let in under
      the name the account no longer has. */
  lemma StaleLoginAfterWrap(o: Options) returns (worlds: seq<World>, steps: seq<Step>)
    requires OptionsOk(o)
    ensures AuthRun(worlds, steps, o) && |steps| > 0
    ensures var w, step := worlds[|steps| - 1], steps[|steps| - 1];
      Accepted(w, step) && w.logins[step.id].snapshot.record == OLD && w.auth.credential == NEW && |w.updates| == WRAP
  {
    worlds, steps := WaitingRun(WRAP, o);
    var w := worlds[|steps|];
    RunKeepsWorldOk(worlds, steps, o, |steps|);
    var token := TokenNumber(WRAP);
    var step := FinishLogin(0, Some(token), 0);
    assert (1 + WRAP) % WRAP == 1;
    assert Accepted(w, step);
    var session := Session("old", 0 + o.ttl);
    var w' := w.(auth := w.auth.(sessions := map[token := session]), logins := map[],
                 issued := w.issued[token := WRAP]);
    assert Next(w, step, o, w') by {
      FirstSession(w.auth, Snapshot(OLD, 1), token, 0, o);
      assert w.logins - {0} == map[];
    }
    hide Next, Waiting;
    worlds, steps := worlds + [w'], steps + [step];
  }
}
