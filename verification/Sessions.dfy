/** Sessions and two-factor sign-in. A handler reads and decides at one moment and
    writes at a later one; the two moments of any number of handlers interleave. */
module Sessions {
  import opened Basics

  const DAY: nat := 86400
  const GRACE: nat := 7 * DAY

  datatype User = User(enabled: bool, secret: Option<string>, pending: Option<string>)

  /** A session row; rows are found by the token's hash, which stands for the token. */
  datatype Session = Session(user: nat, expiresAt: nat, revokedAt: Option<nat>, awaiting: bool)

  datatype Tables = Tables(users: map<nat, User>, sessions: map<string, Session>)

  /** verify_totp on a secret, a code and the time. */
  type Check = (string, string, nat) -> bool

  datatype Request =
    | Register(user: nat, token: string)
    | PasskeyLogin(user: nat, token: string)
    | Login(user: nat, token: string, passwordOk: bool)
    | Logout(token: string)
    | Setup(token: string, secret: string)
    | Verify(token: string, code: string)
    | Disable(token: string, code: string, passwordOk: bool)
    | Challenge(token: string, code: string)
    | AdminRevoke(user: nat)
    | RevokeDevice(tokens: set<string>)
    | DeleteAccount(user: nat)

  /** What a handler has decided to write. */
  datatype Write =
    | Nothing
    | NewAccount(user: nat, token: string)
    | OpenSession(user: nat, token: string, awaiting: bool)
    | RevokeAll(user: nat)
    | RevokeSome(tokens: set<string>)
    | SetPending(user: nat, secret: string)
    | Enable(user: nat, secret: string)
    | Drop2fa(user: nat)
    | Activate(token: string)
    | DropUser(user: nat)

  // ---- What the request extractor accepts --------------------------------------------

  predicate Admits(db: Tables, token: string, challengePath: bool, now: nat) {
    && token in db.sessions && db.sessions[token].user in db.users
    && db.sessions[token].revokedAt.None?
    && now <= db.sessions[token].expiresAt
    && (db.sessions[token].awaiting ==> challengePath)
  }

  function Caller(db: Tables, token: string, now: nat): (user: Option<nat>)
    ensures user.Some? ==> user.value in db.users
  {
    if Admits(db, token, false, now) then Some(db.sessions[token].user) else None
  }

  // ---- The reading half of each handler -----------------------------------------------

  function Read(db: Tables, check: Check, r: Request, now: nat): Write {
    match r
    case Register(user, token) => NewAccount(user, token)
    case PasskeyLogin(user, token) => OpenSession(user, token, false)
    case Login(user, token, passwordOk) =>
      if user in db.users && passwordOk then OpenSession(user, token, db.users[user].enabled) else Nothing
    case AdminRevoke(user) => RevokeAll(user)
    case RevokeDevice(tokens) => RevokeSome(tokens)
    case DeleteAccount(user) => DropUser(user)
    case Challenge(token, code) =>
      if !Admits(db, token, true, now) || !db.sessions[token].awaiting then Nothing
      else
        var u := db.users[db.sessions[token].user];
        if u.secret.Some? && check(u.secret.value, code, now) then Activate(token) else Nothing
    case Logout(token) =>
      if Caller(db, token, now).None? then Nothing else RevokeAll(Caller(db, token, now).value)
    case Setup(token, secret) =>
      var caller := Caller(db, token, now);
      if caller.None? || db.users[caller.value].enabled then Nothing else SetPending(caller.value, secret)
    case Verify(token, code) =>
      var caller := Caller(db, token, now);
      if caller.None? then Nothing
      else
        var u := db.users[caller.value];
        if u.pending.None? || u.pending.value == "" || u.enabled || !check(u.pending.value, code, now) then Nothing
        else Enable(caller.value, u.pending.value)
    case Disable(token, code, passwordOk) =>
      var caller := Caller(db, token, now);
      if caller.None? then Nothing
      else
        var u := db.users[caller.value];
        if u.enabled && u.secret.Some? && check(u.secret.value, code, now) && passwordOk then Drop2fa(caller.value)
        else Nothing
  }

  // ---- The writing half ------------------------------------------------------------------

  function Opened(db: Tables, user: nat, token: string, awaiting: bool, now: nat): Tables {
    if user !in db.users || token in db.sessions then db
    else db.(sessions := db.sessions[token := Session(user, now + DAY, None, awaiting)])
  }

  function Revoked(s: Session, now: nat): Session {
    if s.revokedAt.None? then s.(revokedAt := Some(now)) else s
  }

  function Perform(db: Tables, write: Write, now: nat): Tables {
    match write
    case Nothing => db
    case NewAccount(user, token) =>
      if user in db.users then db
      else Opened(db.(users := db.users[user := User(false, None, None)]), user, token, false, now)
    case OpenSession(user, token, awaiting) => Opened(db, user, token, awaiting, now)
    case RevokeAll(user) =>
      db.(sessions := map t | t in db.sessions ::
            if db.sessions[t].user == user then Revoked(db.sessions[t], now) else db.sessions[t])
    case RevokeSome(tokens) =>
      db.(sessions := map t | t in db.sessions ::
            if t in tokens then Revoked(db.sessions[t], now) else db.sessions[t])
    case SetPending(user, secret) =>
      if user !in db.users then db else db.(users := db.users[user := db.users[user].(pending := Some(secret))])
    case Enable(user, secret) =>
      if user !in db.users then db else db.(users := db.users[user := User(true, Some(secret), None)])
    case Drop2fa(user) =>
      if user !in db.users then db else db.(users := db.users[user := User(false, None, None)])
    case Activate(token) =>
      if token !in db.sessions then db
      else db.(sessions := db.sessions[token := db.sessions[token].(awaiting := false)])
    case DropUser(user) =>
      Tables(db.users - {user}, map t | t in db.sessions && db.sessions[t].user != user :: db.sessions[t])
  }

  predicate Expired(s: Session, now: nat) {
    s.expiresAt < now
  }

  predicate LongRevoked(s: Session, now: nat) {
    s.revokedAt.Some? && s.revokedAt.value + GRACE < now
  }

  function CleanedUp(db: Tables, now: nat): Tables {
    db.(sessions := map t | t in db.sessions && !Expired(db.sessions[t], now) && !LongRevoked(db.sessions[t], now) ::
          db.sessions[t])
  }

  class AuthServer {
    var users: map<nat, User>
    var sessions: map<string, Session>
    const check: Check

    ghost function View(): Tables
      reads this
    {
      Tables(users, sessions)
    }

    constructor (check: Check)
      ensures View() == Tables(map[], map[]) && this.check == check
    {
      this.check := check;
      users, sessions := map[], map[];
    }

    method Authenticate(token: string, challengePath: bool, now: nat) returns (session: Option<Session>)
      ensures session.Some? <==> Admits(View(), token, challengePath, now)
      ensures session.Some? ==> session.value == sessions[token]
    {
      if token !in sessions { return None; }
      var row := sessions[token];
      if row.user !in users || row.revokedAt.Some? || row.expiresAt < now { return None; }
      if row.awaiting && !challengePath { return None; }
      return Some(row);
    }

    method LoginRead(user: nat, token: string, passwordOk: bool, now: nat) returns (w: Write)
      ensures w == Read(View(), check, Login(user, token, passwordOk), now)
    {
      if user !in users || !passwordOk { return Nothing; }
      return OpenSession(user, token, users[user].enabled);
    }

    method ChallengeRead(token: string, code: string, now: nat) returns (w: Write)
      ensures w == Read(View(), check, Challenge(token, code), now)
    {
      var session := Authenticate(token, true, now);
      if session.None? || !session.value.awaiting { return Nothing; }
      var secret := users[session.value.user].secret;
      if secret.None? || !check(secret.value, code, now) { return Nothing; }
      return Activate(token);
    }

    method VerifyRead(token: string, code: string, now: nat) returns (w: Write)
      ensures w == Read(View(), check, Verify(token, code), now)
    {
      var session := Authenticate(token, false, now);
      if session.None? { return Nothing; }
      var u := users[session.value.user];
      if u.pending.None? || u.pending.value == "" || u.enabled { return Nothing; }
      if !check(u.pending.value, code, now) { return Nothing; }
      return Enable(session.value.user, u.pending.value);
    }

    method DisableRead(token: string, code: string, passwordOk: bool, now: nat) returns (w: Write)
      ensures w == Read(View(), check, Disable(token, code, passwordOk), now)
    {
      var session := Authenticate(token, false, now);
      if session.None? { return Nothing; }
      var u := users[session.value.user];
      if !u.enabled || u.secret.None? || !check(u.secret.value, code, now) || !passwordOk { return Nothing; }
      return Drop2fa(session.value.user);
    }

    method SetupRead(token: string, secret: string, now: nat) returns (w: Write)
      ensures w == Read(View(), check, Setup(token, secret), now)
    {
      var session := Authenticate(token, false, now);
      if session.None? || users[session.value.user].enabled { return Nothing; }
      return SetPending(session.value.user, secret);
    }

    method LogoutRead(token: string, now: nat) returns (w: Write)
      ensures w == Read(View(), check, Logout(token), now)
    {
      var session := Authenticate(token, false, now);
      if session.None? { return Nothing; }
      return RevokeAll(session.value.user);
    }

    /** A row for a missing user or with a used token hash violates a constraint. */
    method InsertSession(user: nat, token: string, awaiting: bool, now: nat)
      modifies this`sessions
      ensures View() == Opened(old(View()), user, token, awaiting, now)
    {
      if user in users && token !in sessions {
        sessions := sessions[token := Session(user, now + DAY, None, awaiting)];
      }
    }

    method StorePending(user: nat, secret: string)
      modifies this`users
      ensures View() == Perform(old(View()), SetPending(user, secret), 0)
    {
      if user in users { users := users[user := users[user].(pending := Some(secret))]; }
    }

    method EnableTwoFactor(user: nat, secret: string)
      modifies this`users
      ensures View() == Perform(old(View()), Enable(user, secret), 0)
    {
      if user in users { users := users[user := User(true, Some(secret), None)]; }
    }

    method DisableTwoFactor(user: nat)
      modifies this`users
      ensures View() == Perform(old(View()), Drop2fa(user), 0)
    {
      if user in users { users := users[user := User(false, None, None)]; }
    }

    method RevokeUserSessions(user: nat, now: nat)
      modifies this`sessions
      ensures View() == Perform(old(View()), RevokeAll(user), now)
    {
      sessions := map t | t in sessions ::
          if sessions[t].user == user && sessions[t].revokedAt.None? then sessions[t].(revokedAt := Some(now))
          else sessions[t];
    }

    method ActivateSession(token: string)
      modifies this`sessions
      ensures View() == Perform(old(View()), Activate(token), 0)
    {
      if token in sessions { sessions := sessions[token := sessions[token].(awaiting := false)]; }
    }

    /** Two deletes; the count is of the rows they removed. */
    method CleanUp(now: nat) returns (removed: nat)
      modifies this`sessions
      ensures View() == CleanedUp(old(View()), now)
      ensures removed + |sessions| == |old(sessions)|
    {
      var live := map t | t in sessions && !(sessions[t].expiresAt < now) :: sessions[t];
      Fewer(live, sessions);
      var expired := |sessions| - |live|;
      var kept := map t | t in live && !(live[t].revokedAt.Some? && live[t].revokedAt.value < now - GRACE) :: live[t];
      Fewer(kept, live);
      removed := expired + (|live| - |kept|);
      sessions := kept;
    }
  }

  lemma Fewer(small: map<string, Session>, large: map<string, Session>)
    requires small.Keys <= large.Keys
    ensures |small| <= |large|
  {
    SubsetIsSmaller(small.Keys, large.Keys);
    assert |small| == |small.Keys| && |large| == |large.Keys|;
  }

  lemma {:induction false} SubsetIsSmaller(a: set<string>, b: set<string>)
    requires a <= b
    ensures |a| <= |b|
    decreases |a|
  {
    if x :| x in a {
      SubsetIsSmaller(a - {x}, b - {x});
    }
  }

  // ---- Runs ----------------------------------------------------------------------------------

  datatype Step = Begin(id: nat, request: Request) | Finish(id: nat) | CleanUpTick | Wait(seconds: nat)

  /** `tasks` are the handlers between their two moments. */
  datatype World = World(db: Tables, tasks: map<nat, Write>, now: nat)

  function Do(check: Check, w: World, step: Step): World {
    match step
    case Begin(id, request) =>
      if id in w.tasks then w else w.(tasks := w.tasks[id := Read(w.db, check, request, w.now)])
    case Finish(id) =>
      if id !in w.tasks then w else World(Perform(w.db, w.tasks[id], w.now), w.tasks - {id}, w.now)
    case CleanUpTick => w.(db := CleanedUp(w.db, w.now))
    case Wait(seconds) => w.(now := w.now + seconds)
  }

  function Run(check: Check, w: World, steps: seq<Step>): World {
    if steps == [] then w else Do(check, Run(check, w, steps[..|steps| - 1]), steps[|steps| - 1])
  }

  /** Nobody is signed in and no handler is under way. */
  ghost predicate Initial(w: World) {
    w.db.sessions == map[] && w.tasks == map[] && SecretsStored(w.db)
  }

  // ---- totp_enabled holds exactly when a secret is stored ---------------------------------

  ghost predicate SecretsStored(db: Tables) {
    forall u :: u in db.users ==> (db.users[u].enabled <==> db.users[u].secret.Some?)
  }

  /** Every single write keeps it, so no interleaving can break it. */
  lemma {:induction false} PerformStoresSecrets(db: Tables, write: Write, now: nat)
    requires SecretsStored(db)
    ensures SecretsStored(Perform(db, write, now))
  {
  }

  lemma {:induction false} EnabledMeansSecret(check: Check, w: World, steps: seq<Step>)
    requires Initial(w)
    ensures SecretsStored(Run(check, w, steps).db)
    decreases |steps|
  {
    hide Read, Perform;
    if steps == [] {
    } else {
      var before, last := Run(check, w, steps[..|steps| - 1]), steps[|steps| - 1];
      EnabledMeansSecret(check, w, steps[..|steps| - 1]);
      if last.Finish? && last.id in before.tasks {
        PerformStoresSecrets(before.db, before.tasks[last.id], before.now);
      }
    }
  }

  // ---- Where an accepted session comes from -----------------------------------------------

  /** This request entitles the token to a full session: a registration, a passkey, a
      password login that saw two-factor off, or a code that checked out on the token. */
  ghost predicate Grants(check: Check, before: World, step: Step, token: string) {
    step.Begin? && match step.request
                   case Register(_, t) => t == token
                   case PasskeyLogin(_, t) => t == token
                   case Login(user, t, passwordOk) =>
                     t == token && passwordOk && user in before.db.users && !before.db.users[user].enabled
                   case Challenge(t, code) =>
                     && t == token && Admits(before.db, t, true, before.now) && before.db.sessions[t].awaiting
                     && var secret := before.db.users[before.db.sessions[t].user].secret;
                        secret.Some? && check(secret.value, code, before.now)
                   case _ => false
  }

  ghost predicate Granted(check: Check, w: World, steps: seq<Step>, token: string) {
    exists i :: 0 <= i < |steps| && Grants(check, Run(check, w, steps[..i]), steps[i], token)
  }

  lemma {:induction false} GrantedStays(check: Check, w: World, steps: seq<Step>, last: Step, token: string)
    requires Granted(check, w, steps, token)
    ensures Granted(check, w, steps + [last], token)
  {
    hide Grants, Run;
    var all := steps + [last];
    var i :| 0 <= i < |steps| && Grants(check, Run(check, w, steps[..i]), steps[i], token);
    assert all[..i] == steps[..i] && all[i] == steps[i];
  }

  /** The token that a write gives a full session. */
  function FullFor(write: Write): Option<string> {
    match write
    case NewAccount(_, token) => Some(token)
    case OpenSession(_, token, awaiting) => if awaiting then None else Some(token)
    case Activate(token) => Some(token)
    case _ => None
  }

  ghost predicate AllGranted(check: Check, w: World, steps: seq<Step>, end: World) {
    && (forall t :: t in end.db.sessions && !end.db.sessions[t].awaiting ==> Granted(check, w, steps, t))
    && (forall id :: id in end.tasks && FullFor(end.tasks[id]).Some? ==>
        Granted(check, w, steps, FullFor(end.tasks[id]).value))
  }

  lemma {:induction false} ReadIsGranted(check: Check, before: World, id: nat, r: Request)
    ensures var full := FullFor(Read(before.db, check, r, before.now));
            full.Some? ==> Grants(check, before, Begin(id, r), full.value)
  {
  }

  lemma {:induction false} PerformMakesFull(db: Tables, write: Write, now: nat, t: string)
    ensures var after := Perform(db, write, now);
            t in after.sessions && !after.sessions[t].awaiting ==>
              FullFor(write) == Some(t) || (t in db.sessions && !db.sessions[t].awaiting)
  {
  }

  lemma {:induction false} AllStayGranted(check: Check, w: World, steps: seq<Step>)
    requires Initial(w)
    ensures AllGranted(check, w, steps, Run(check, w, steps))
    decreases |steps|
  {
    hide Granted, Read, Perform, Grants, FullFor;
    if steps == [] {
    } else {
      var init, last := steps[..|steps| - 1], steps[|steps| - 1];
      assert init + [last] == steps;
      AllStayGranted(check, w, init);
      var before := Run(check, w, init);
      forall t | Granted(check, w, init, t)
        ensures Granted(check, w, steps, t)
      {
        GrantedStays(check, w, init, last, t);
      }
      match last {
        case Begin(id, r) =>
          ReadIsGranted(check, before, id, r);
          LastGrants(check, w, init, last);
        case Finish(id) =>
          if id in before.tasks {
            forall t { PerformMakesFull(before.db, before.tasks[id], before.now, t); }
          }
        case _ =>
      }
    }
  }

  lemma {:induction false} LastGrants(check: Check, w: World, init: seq<Step>, last: Step)
    ensures forall t :: Grants(check, Run(check, w, init), last, t) ==> Granted(check, w, init + [last], t)
  {
    hide Grants, Run;
    var all := init + [last];
    assert all[..|init|] == init && all[|init|] == last;
  }

  /** Whatever the interleaving, a session accepted off the challenge path was granted:
      nobody is signed in to an account by password alone unless that login saw
      two-factor off. */
  lemma {:induction false} AcceptedIsGranted(check: Check, w: World, steps: seq<Step>, token: string)
    requires Initial(w)
    requires Admits(Run(check, w, steps).db, token, false, Run(check, w, steps).now)
    ensures Granted(check, w, steps, token)
  {
    hide Granted, Run;
    AllStayGranted(check, w, steps);
  }

  /** Step i of the run, at time `opening`, finished a handler that opened the token. */
  ghost predicate OpenedAt(check: Check, w: World, steps: seq<Step>, i: nat, token: string, opening: nat) {
    && i < |steps| && steps[i].Finish?
    && var before := Run(check, w, steps[..i]);
       steps[i].id in before.tasks && TokenOpened(before.tasks[steps[i].id]) == Some(token) && opening == before.now
  }

  lemma {:induction false} PerformExpiry(db: Tables, write: Write, now: nat, t: string)
    ensures var after := Perform(db, write, now);
            t in after.sessions ==>
              if t in db.sessions then after.sessions[t].expiresAt == db.sessions[t].expiresAt
              else TokenOpened(write) == Some(t) && after.sessions[t].expiresAt == now + DAY
  {
  }

  lemma {:induction false} RowsLastADay(check: Check, w: World, steps: seq<Step>, token: string)
    returns (i: nat, opening: nat)
    requires Initial(w) && token in Run(check, w, steps).db.sessions
    ensures OpenedAt(check, w, steps, i, token, opening)
    ensures Run(check, w, steps).db.sessions[token].expiresAt == opening + DAY
    decreases |steps|
  {
    hide Read, Perform, TokenOpened;
    var n := |steps| - 1;
    var init, last := steps[..n], steps[n];
    var before := Run(check, w, init);
    if last.Finish? && last.id in before.tasks {
      PerformExpiry(before.db, before.tasks[last.id], before.now, token);
    }
    if token in before.db.sessions {
      i, opening := RowsLastADay(check, w, init, token);
      assert init[..i] == steps[..i];
    } else {
      i, opening := n, before.now;
    }
  }

  /** Nothing prolongs a session: what is accepted was opened at most a day ago. */
  lemma {:induction false} AcceptedWasOpenedToday(check: Check, w: World, steps: seq<Step>, token: string, path: bool)
    returns (i: nat, opening: nat)
    requires Initial(w)
    requires Admits(Run(check, w, steps).db, token, path, Run(check, w, steps).now)
    ensures OpenedAt(check, w, steps, i, token, opening) && Run(check, w, steps).now <= opening + DAY
  {
    hide OpenedAt, Run;
    i, opening := RowsLastADay(check, w, steps, token);
  }

  /** What the read saw is what counts: a login that saw two-factor off opens a full
      session although two-factor was enabled before the session was opened. */
  lemma {:induction false} EnabledWhileSigningIn(check: Check, w: World, user: nat, session: string, token: string,
      code: string)
    requires user in w.db.users && !w.db.users[user].enabled && w.tasks == map[]
    requires Admits(w.db, session, false, w.now) && w.db.sessions[session].user == user
    requires w.db.users[user].pending.Some? && w.db.users[user].pending.value != ""
    requires check(w.db.users[user].pending.value, code, w.now) && token !in w.db.sessions
    ensures var w1 := Do(check, w, Begin(0, Login(user, token, true)));
            var w2 := Do(check, w1, Begin(1, Verify(session, code)));
            var end := Do(check, Do(check, w2, Finish(1)), Finish(0));
            end.db.users[user].enabled && Admits(end.db, token, false, end.now)
  {
  }

  // ---- What turns two-factor on and off ---------------------------------------------------

  /** A handler under way has decided what it read at the step that began it. */
  lemma {:induction false} TaskWasRead(check: Check, w: World, steps: seq<Step>, id: nat) returns (i: nat)
    requires Initial(w) && id in Run(check, w, steps).tasks
    ensures i < |steps| && steps[i].Begin?
    ensures var before := Run(check, w, steps[..i]);
            Read(before.db, check, steps[i].request, before.now) == Run(check, w, steps).tasks[id]
    decreases |steps|
  {
    hide Read, Perform;
    var n := |steps| - 1;
    var init := steps[..n];
    if id in Run(check, w, init).tasks {
      i := TaskWasRead(check, w, init, id);
      assert init[..i] == steps[..i];
    } else {
      i := n;
    }
  }

  lemma {:induction false} PerformSwitches(db: Tables, write: Write, now: nat, user: nat)
    requires user in db.users && user in Perform(db, write, now).users
    ensures var before, after := db.users[user], Perform(db, write, now).users[user];
            && (before.enabled && !after.enabled ==> write == Drop2fa(user))
            && (!before.enabled && after.enabled ==>
                write.Enable? && write.user == user && after.secret == Some(write.secret))
  {
  }

  /** An account loses two-factor only by a request of its own full session that carried
      the password and a code valid for the stored secret. */
  lemma {:induction false} TurnedOffWithCode(check: Check, w: World, steps: seq<Step>, last: Step, user: nat)
    returns (i: nat)
    requires Initial(w)
    requires var mid := Run(check, w, steps);
             && user in mid.db.users && mid.db.users[user].enabled
             && user in Do(check, mid, last).db.users && !Do(check, mid, last).db.users[user].enabled
    ensures i < |steps|
    ensures var before, step := Run(check, w, steps[..i]), steps[i];
            && step.Begin? && step.request.Disable? && step.request.passwordOk
            && Caller(before.db, step.request.token, before.now) == Some(user)
            && before.db.users[user].secret.Some?
            && check(before.db.users[user].secret.value, step.request.code, before.now)
  {
    hide Run, Perform, Admits;
    var mid := Run(check, w, steps);
    assert last.Finish? && last.id in mid.tasks;
    PerformSwitches(mid.db, mid.tasks[last.id], mid.now, user);
    i := TaskWasRead(check, w, steps, last.id);
  }

  /** An account gains two-factor only by a code valid for the pending secret of its own
      full session, and that secret is then the stored one. */
  lemma {:induction false} TurnedOnWithCode(check: Check, w: World, steps: seq<Step>, last: Step,
                                            user: nat) returns (i: nat)
    requires Initial(w)
    requires var mid := Run(check, w, steps);
             && user in mid.db.users && !mid.db.users[user].enabled
             && user in Do(check, mid, last).db.users && Do(check, mid, last).db.users[user].enabled
    ensures i < |steps|
    ensures var before, step := Run(check, w, steps[..i]), steps[i];
            && step.Begin? && step.request.Verify?
            && Caller(before.db, step.request.token, before.now) == Some(user)
            && !before.db.users[user].enabled && before.db.users[user].pending.Some?
            && before.db.users[user].pending.value != ""
            && check(before.db.users[user].pending.value, step.request.code, before.now)
            && Do(check, Run(check, w, steps), last).db.users[user].secret == before.db.users[user].pending
  {
    hide Run, Perform, Admits;
    var mid := Run(check, w, steps);
    assert last.Finish? && last.id in mid.tasks;
    PerformSwitches(mid.db, mid.tasks[last.id], mid.now, user);
    i := TaskWasRead(check, w, steps, last.id);
  }

  // ---- Dead tokens stay dead ----------------------------------------------------------------

  ghost predicate Dead(s: Session, now: nat) {
    s.revokedAt.Some? || Expired(s, now)
  }

  function TokenOpened(write: Write): Option<string> {
    match write
    case NewAccount(_, token) => Some(token)
    case OpenSession(_, token, _) => Some(token)
    case _ => None
  }

  function TokenIssued(step: Step): Option<string> {
    if !step.Begin? then None
    else match step.request
         case Register(_, token) => Some(token)
         case PasskeyLogin(_, token) => Some(token)
         case Login(_, token, _) => Some(token)
         case _ => None
  }

  function Issued(steps: seq<Step>): set<string> {
    if steps == [] then {}
    else
      var token := TokenIssued(steps[|steps| - 1]);
      Issued(steps[..|steps| - 1]) + (if token.Some? then {token.value} else {})
  }

  /** Random tokens never repeat. */
  predicate FreshTokens(steps: seq<Step>) {
    steps == []
    || (&& FreshTokens(steps[..|steps| - 1])
        && var token := TokenIssued(steps[|steps| - 1]);
           token.Some? ==> token.value !in Issued(steps[..|steps| - 1]))
  }

  /** A token is opened once: by one handler under way, or it has a row already. */
  ghost predicate OpenedOnce(w: World, issued: set<string>) {
    && (forall t :: t in w.db.sessions ==> t in issued)
    && (forall id :: id in w.tasks && TokenOpened(w.tasks[id]).Some? ==>
          TokenOpened(w.tasks[id]).value in issued && TokenOpened(w.tasks[id]).value !in w.db.sessions)
    && (forall i, j :: i in w.tasks && j in w.tasks && i != j && TokenOpened(w.tasks[i]).Some? ==>
          TokenOpened(w.tasks[i]) != TokenOpened(w.tasks[j]))
  }

  lemma {:induction false} ReadOpensIssued(db: Tables, check: Check, id: nat, r: Request, now: nat)
    ensures var token := TokenOpened(Read(db, check, r, now));
            token.Some? ==> token == TokenIssued(Begin(id, r))
  {
  }

  /** The only new row a write makes is for the token it opens, and that row is not dead;
      no other row revives. */
  lemma {:induction false} PerformKeepsRows(db: Tables, write: Write, now: nat, t: string)
    ensures var after := Perform(db, write, now);
            && (t in after.sessions ==> t in db.sessions || TokenOpened(write) == Some(t))
            && (t in after.sessions && t in db.sessions ==>
                  after.sessions[t].user == db.sessions[t].user &&
                      after.sessions[t].expiresAt == db.sessions[t].expiresAt
                  && (db.sessions[t].revokedAt.Some? ==> after.sessions[t].revokedAt.Some?))
  {
  }

  lemma {:induction false} TokensOpenOnce(check: Check, w: World, steps: seq<Step>)
    requires Initial(w) && FreshTokens(steps)
    ensures OpenedOnce(Run(check, w, steps), Issued(steps))
    decreases |steps|
  {
    hide Read, Perform, TokenOpened, TokenIssued;
    if steps == [] {
    } else {
      var init, last := steps[..|steps| - 1], steps[|steps| - 1];
      TokensOpenOnce(check, w, init);
      var before := Run(check, w, init);
      match last {
        case Begin(id, r) => ReadOpensIssued(before.db, check, id, r, before.now);
        case Finish(id) =>
          if id in before.tasks {
            forall t { PerformKeepsRows(before.db, before.tasks[id], before.now, t); }
          }
        case _ =>
      }
    }
  }

  /** The token has no row that could be accepted, and no handler will make one. */
  ghost predicate Spent(w: World, token: string) {
    && (token in w.db.sessions ==> Dead(w.db.sessions[token], w.now))
    && (forall id :: id in w.tasks ==> TokenOpened(w.tasks[id]) != Some(token))
  }

  lemma {:induction false} StepKeepsSpent(check: Check, w: World, step: Step, token: string)
    requires Spent(w, token) && TokenIssued(step) != Some(token)
    ensures Spent(Do(check, w, step), token)
  {
    hide Read, Perform, TokenOpened, TokenIssued;
    match step {
      case Begin(id, r) => ReadOpensIssued(w.db, check, id, r, w.now);
      case Finish(id) => if id in w.tasks { PerformKeepsRows(w.db, w.tasks[id], w.now, token); }
      case _ =>
    }
  }

  lemma {:induction false} SpentForever(check: Check, w: World, steps: seq<Step>, more: seq<Step>, token: string)
    requires Spent(Run(check, w, steps), token) && token in Issued(steps) && FreshTokens(steps + more)
    ensures Spent(Run(check, w, steps + more), token) && token in Issued(steps + more)
    decreases |more|
  {
    hide Spent, Do, TokenIssued;
    if more == [] {
      assert steps + more == steps;
    } else {
      var init, last := more[..|more| - 1], more[|more| - 1];
      assert (steps + more)[..|steps + more| - 1] == steps + init;
      SpentForever(check, w, steps, init, token);
      StepKeepsSpent(check, Run(check, w, steps + init), last, token);
    }
  }

  /** A session that is revoked or expired is rejected on every path from then on, through
      clean-ups, late challenges and whatever else. */
  lemma {:induction false} DeadIsRejectedForever(check: Check, w: World, steps: seq<Step>, more: seq<Step>,
      token: string, path: bool)
    requires Initial(w) && FreshTokens(steps) && FreshTokens(steps + more)
    requires var mid := Run(check, w, steps); token in mid.db.sessions && Dead(mid.db.sessions[token], mid.now)
    ensures var end := Run(check, w, steps + more); !Admits(end.db, token, path, end.now)
  {
    TokensOpenOnce(check, w, steps);
    assert Spent(Run(check, w, steps), token);
    hide Run, Issued, FreshTokens, OpenedOnce;
    SpentForever(check, w, steps, more, token);
  }

  // ---- Cleaning up is invisible ----------------------------------------------------------------

  function WithoutCleanUps(steps: seq<Step>): seq<Step> {
    if steps == [] then []
    else
      var init, last := steps[..|steps| - 1], steps[|steps| - 1];
      if last.CleanUpTick? then WithoutCleanUps(init) else WithoutCleanUps(init) + [last]
  }

  lemma {:induction false} StillFresh(steps: seq<Step>)
    requires FreshTokens(steps)
    ensures FreshTokens(WithoutCleanUps(steps)) && Issued(WithoutCleanUps(steps)) == Issued(steps)
    decreases |steps|
  {
    if steps == [] {
    } else {
      var init, last := steps[..|steps| - 1], steps[|steps| - 1];
      StillFresh(init);
      if last.CleanUpTick? {
        assert TokenIssued(last).None?;
        hide TokenIssued;
      } else {
        hide TokenIssued;
        assert (WithoutCleanUps(init) + [last])[..|WithoutCleanUps(init)|] == WithoutCleanUps(init);
      }
    }
  }

  /** `v` has the rows of `w` and, besides, only dead ones. */
  ghost predicate OnlyDeadMore(w: World, v: World) {
    && w.db.users == v.db.users && w.tasks == v.tasks && w.now == v.now
    && (forall t :: t in w.db.sessions ==> t in v.db.sessions && v.db.sessions[t] == w.db.sessions[t])
    && (forall t :: t in v.db.sessions && t !in w.db.sessions ==> Dead(v.db.sessions[t], v.now))
  }

  lemma {:induction false} ReadsTheSame(check: Check, w: World, v: World, r: Request)
    requires OnlyDeadMore(w, v)
    ensures Read(w.db, check, r, w.now) == Read(v.db, check, r, v.now)
  {
    if r.Logout? || r.Setup? || r.Verify? || r.Disable? || r.Challenge? {
      assert forall path :: Admits(w.db, r.token, path, w.now) == Admits(v.db, r.token, path, v.now);
    }
  }

  lemma {:induction false} WritesTheSame(w: World, v: World, write: Write)
    requires OnlyDeadMore(w, v)
    requires TokenOpened(write).Some? ==> TokenOpened(write).value !in v.db.sessions
    ensures OnlyDeadMore(w.(db := Perform(w.db, write, w.now)), v.(db := Perform(v.db, write, v.now)))
  {
    assert TokenOpened(write).Some? ==> TokenOpened(write).value !in w.db.sessions;
  }

  lemma {:induction false} CleanUpDropsDead(w: World, v: World)
    requires OnlyDeadMore(w, v)
    ensures OnlyDeadMore(w.(db := CleanedUp(w.db, w.now)), v)
  {
  }

  lemma {:induction false} RunsAgree(check: Check, w: World, steps: seq<Step>)
    requires Initial(w) && FreshTokens(steps)
    ensures OnlyDeadMore(Run(check, w, steps), Run(check, w, WithoutCleanUps(steps)))
    decreases |steps|
  {
    if steps == [] {
    } else {
      var init, last := steps[..|steps| - 1], steps[|steps| - 1];
      RunsAgree(check, w, init);
      StillFresh(init);
      TokensOpenOnce(check, w, WithoutCleanUps(init));
      StepAgrees(check, Run(check, w, init), Run(check, w, WithoutCleanUps(init)), last, Issued(init));
      hide OnlyDeadMore, OpenedOnce, Do, FreshTokens, Issued;
      if !last.CleanUpTick? {
        assert (WithoutCleanUps(init) + [last])[..|WithoutCleanUps(init)|] == WithoutCleanUps(init);
      }
    }
  }

  lemma {:induction false} StepAgrees(check: Check, a: World, b: World, step: Step, issued: set<string>)
    requires OnlyDeadMore(a, b) && OpenedOnce(b, issued)
    ensures OnlyDeadMore(Do(check, a, step), if step.CleanUpTick? then b else Do(check, b, step))
  {
    hide Read, Perform, CleanedUp, TokenOpened;
    match step {
      case Begin(id, r) => ReadsTheSame(check, a, b, r);
      case Finish(id) => if id in a.tasks { WritesTheSame(a, b, a.tasks[id]); }
      case CleanUpTick => CleanUpDropsDead(a, b);
      case Wait(_) =>
    }
  }

  /** Deleting expired and long-revoked rows cannot be told from never deleting them: every
      request is accepted or rejected alike, at every moment of every run. */
  lemma {:induction false} CleanUpIsInvisible(check: Check, w: World, steps: seq<Step>, token: string, path: bool)
    requires Initial(w) && FreshTokens(steps)
    ensures var end, other := Run(check, w, steps), Run(check, w, WithoutCleanUps(steps));
            Admits(end.db, token, path, end.now) == Admits(other.db, token, path, other.now)
  {
    RunsAgree(check, w, steps);
    hide Run, FreshTokens;
  }
}
