/** What a handler has brought about once it finishes, whatever other handlers, clean-ups
    and waiting come between its two moments. */
module SessionEffects {
  import opened Basics
  import opened Sessions

  // ---- Between the two moments -------------------------------------------------------------

  /** `id` is free, and nothing in between finishes it. */
  ghost predicate Underway(w: World, id: nat, between: seq<Step>) {
    id !in w.tasks && forall k :: 0 <= k < |between| ==> between[k] != Finish(id)
  }

  /** The world the handler finishes in. */
  function Midway(check: Check, w: World, id: nat, r: Request, between: seq<Step>): World {
    Run(check, Do(check, w, Begin(id, r)), between)
  }

  function Finished(check: Check, w: World, id: nat, r: Request, between: seq<Step>): World {
    Do(check, Midway(check, w, id, r, between), Finish(id))
  }

  /** A decision stays as it was read until its handler finishes. */
  lemma {:induction false} DecisionStays(check: Check, w: World, between: seq<Step>, id: nat)
    requires id in w.tasks && forall k :: 0 <= k < |between| ==> between[k] != Finish(id)
    ensures var end := Run(check, w, between); id in end.tasks && end.tasks[id] == w.tasks[id]
    decreases |between|
  {
    hide Read, Perform;
    if between == [] {
    } else {
      DecisionStays(check, w, between[..|between| - 1], id);
    }
  }

  lemma {:induction false} FinishPerforms(check: Check, w: World, id: nat, r: Request, between: seq<Step>)
    requires Underway(w, id, between)
    ensures var mid, end := Midway(check, w, id, r, between), Finished(check, w, id, r, between);
            end.now == mid.now && end.db == Perform(mid.db, Read(w.db, check, r, w.now), mid.now)
  {
    DecisionStays(check, Do(check, w, Begin(id, r)), between, id);
    hide Read, Perform, Run;
  }

  /** The row is let in on neither kind of path, now or later. */
  ghost predicate ShutOut(db: Tables, token: string, now: nat) {
    forall path, later :: now <= later ==> !Admits(db, token, path, later)
  }

  // ---- Signing out ---------------------------------------------------------------------------

  /** Who signs out whom: the caller everywhere, an administrator an account, a user a
      device's sessions. */
  ghost predicate SignsOut(w: World, r: Request, token: string, owner: nat) {
    match r
    case Logout(mine) =>
      && mine in w.db.sessions && w.db.sessions[mine].user == owner && owner in w.db.users
      && w.db.sessions[mine].revokedAt.None? && w.now <= w.db.sessions[mine].expiresAt
      && !w.db.sessions[mine].awaiting
    case AdminRevoke(user) => user == owner
    case RevokeDevice(tokens) => token in tokens
    case _ => false
  }

  /** When it finishes, every session row it is meant for is shut out, revoked at that moment
      unless it was revoked before, and every other row, and every account, is as it was. */
  lemma {:induction false} SigningOutTakesEffect(check: Check, w: World, id: nat, r: Request, between: seq<Step>)
    requires Underway(w, id, between) && (r.Logout? || r.AdminRevoke? || r.RevokeDevice?)
    ensures var mid, end := Midway(check, w, id, r, between), Finished(check, w, id, r, between);
            && end.db.users == mid.db.users && end.db.sessions.Keys == mid.db.sessions.Keys
            && forall t :: t in mid.db.sessions ==>
                 if SignsOut(w, r, t, mid.db.sessions[t].user)
                 then
                   && ShutOut(end.db, t, 0) && Dead(end.db.sessions[t], end.now)
                   && end.db.sessions[t] == (var row := mid.db.sessions[t];
                                             if row.revokedAt.Some? then row else row.(revokedAt := Some(mid.now)))
                 else end.db.sessions[t] == mid.db.sessions[t]
  {
    hide Run, Midway, Finished;
    FinishPerforms(check, w, id, r, between);
  }

  lemma {:induction false} RunJoins(check: Check, w: World, steps: seq<Step>, more: seq<Step>)
    ensures Run(check, w, steps + more) == Run(check, Run(check, w, steps), more)
    decreases |more|
  {
    hide Do;
    if more == [] {
      assert steps + more == steps;
    } else {
      var n := |more| - 1;
      assert (steps + more)[..|steps + more| - 1] == steps + more[..n];
      RunJoins(check, w, steps, more[..n]);
    }
  }

  function Handled(steps: seq<Step>, id: nat, r: Request, between: seq<Step>): seq<Step> {
    steps + [Begin(id, r)] + between + [Finish(id)]
  }

  lemma {:induction false} HandledIsFinished(check: Check, w: World, steps: seq<Step>, id: nat, r: Request,
                                             between: seq<Step>)
    ensures Run(check, w, Handled(steps, id, r, between)) == Finished(check, Run(check, w, steps), id, r, between)
  {
    hide Do;
    var begun := steps + [Begin(id, r)];
    assert begun[..|begun| - 1] == steps;
    RunJoins(check, w, begun, between);
    assert Handled(steps, id, r, between)[..|begun + between|] == begun + between;
  }

  /** And that is for good: no step of any later run lets such a session in again. */
  lemma {:induction false} SignedOutForever(check: Check, w: World, steps: seq<Step>, id: nat, r: Request,
      between: seq<Step>, more: seq<Step>, token: string, path: bool)
    requires Initial(w) && FreshTokens(Handled(steps, id, r, between))
    requires FreshTokens(Handled(steps, id, r, between) + more)
    requires Underway(Run(check, w, steps), id, between)
    requires var mid := Midway(check, Run(check, w, steps), id, r, between);
             token in mid.db.sessions && SignsOut(Run(check, w, steps), r, token, mid.db.sessions[token].user)
    ensures var end := Run(check, w, Handled(steps, id, r, between) + more); !Admits(end.db, token, path, end.now)
  {
    hide Run, Do, Dead, FreshTokens, Midway, Finished, ShutOut;
    SigningOutTakesEffect(check, Run(check, w, steps), id, r, between);
    HandledIsFinished(check, w, steps, id, r, between);
    DeadIsRejectedForever(check, w, Handled(steps, id, r, between), more, token, path);
  }

  // ---- Signing in ------------------------------------------------------------------------------

  /** The sign-in is entitled to a row: an account that does not exist yet, a passkey of one
      that does, or a password that checked out. */
  ghost predicate MayOpen(w: World, before: Tables, r: Request)
    requires r.Register? || r.PasskeyLogin? || r.Login?
  {
    match r
    case Register(user, _) => user !in before.users
    case PasskeyLogin(user, _) => user in before.users
    case Login(user, _, passwordOk) => passwordOk && user in w.db.users && user in before.users
  }

  /** It finishes with a session that is let in for a day, on every path, or, after a
      password sign-in that saw two-factor on, on the challenge path only. Nothing else
      changes but the account a registration adds. */
  lemma {:induction false} SigningInTakesEffect(check: Check, w: World, id: nat, r: Request, between: seq<Step>,
                                                path: bool, later: nat)
    requires Underway(w, id, between) && (r.Register? || r.PasskeyLogin? || r.Login?)
    requires var mid := Midway(check, w, id, r, between);
             r.token !in mid.db.sessions && mid.now <= later
    ensures var mid, end := Midway(check, w, id, r, between), Finished(check, w, id, r, between);
            var mayOpen := MayOpen(w, mid.db, r);
            && (Admits(end.db, r.token, path, later) <==>
                mayOpen && later <= mid.now + 86400 && (r.Login? && w.db.users[r.user].enabled ==> path))
            && (forall t :: t != r.token ==> (t in end.db.sessions <==> t in mid.db.sessions))
            && (forall t :: t != r.token && t in mid.db.sessions ==> end.db.sessions[t] == mid.db.sessions[t])
            && (mayOpen ==> r.token in end.db.sessions && end.db.sessions[r.token].user == r.user)
            && end.db.users == if r.Register? && mayOpen then mid.db.users[r.user := User(false, None, None)]
                               else mid.db.users
  {
    hide Run, Midway, Finished;
    FinishPerforms(check, w, id, r, between);
  }

  // ---- Two-factor codes ------------------------------------------------------------------------

  /** A right code on a session that awaits one, live when the request came in. */
  ghost predicate RightCode(check: Check, w: World, token: string, code: string) {
    && token in w.db.sessions && w.db.sessions[token].awaiting && w.db.sessions[token].revokedAt.None?
    && w.now <= w.db.sessions[token].expiresAt && w.db.sessions[token].user in w.db.users
    && var secret := w.db.users[w.db.sessions[token].user].secret;
       secret.Some? && check(secret.value, code, w.now)
  }

  /** It makes the session full: from then on it is let in wherever, until then, only the
      challenge path let it in. Any other request leaves the tables as they were. */
  lemma {:induction false} ChallengeTakesEffect(check: Check, w: World, id: nat, token: string, code: string,
                                                between: seq<Step>)
    requires Underway(w, id, between)
    ensures var r := Challenge(token, code);
            var mid, end := Midway(check, w, id, r, between), Finished(check, w, id, r, between);
            if !RightCode(check, w, token, code) then end.db == mid.db
            else
              && end.db.users == mid.db.users && end.db.sessions.Keys == mid.db.sessions.Keys
              && (forall t :: t in mid.db.sessions && t != token ==> end.db.sessions[t] == mid.db.sessions[t])
              && (forall path, later :: Admits(end.db, token, path, later) <==> Admits(mid.db, token, true, later))
  {
    hide Run, Midway, Finished;
    FinishPerforms(check, w, id, Challenge(token, code), between);
  }

  /** The account that a full session speaks for. */
  ghost predicate SpeaksFor(w: World, token: string, user: nat) {
    && token in w.db.sessions && w.db.sessions[token].user == user && user in w.db.users
    && !w.db.sessions[token].awaiting && w.db.sessions[token].revokedAt.None?
    && w.now <= w.db.sessions[token].expiresAt
  }

  /** Only the account of this user changes, to `u`, unless it was deleted meanwhile. */
  ghost predicate OnlyUser(before: Tables, after: Tables, user: nat, u: User) {
    && after.sessions == before.sessions
    && after.users == if user in before.users then before.users[user := u] else before.users
  }

  /** Setting two-factor up keeps the secret as pending, for a full session of an account
      that has it off. */
  lemma {:induction false} SetupTakesEffect(check: Check, w: World, id: nat, token: string, secret: string,
                                            between: seq<Step>, user: nat)
    requires Underway(w, id, between)
    ensures var r := Setup(token, secret);
            var mid, end := Midway(check, w, id, r, between), Finished(check, w, id, r, between);
            && end.db.sessions == mid.db.sessions
            && (SpeaksFor(w, token, user) && !w.db.users[user].enabled ==>
                  end.db.users == if user !in mid.db.users then mid.db.users
                                     else mid.db.users[user := mid.db.users[user].(pending := Some(secret))])
            && (!SpeaksFor(w, token, user) && user in mid.db.users ==>
                  user in end.db.users && end.db.users[user] == mid.db.users[user])
            && (SpeaksFor(w, token, user) && w.db.users[user].enabled ==> end.db == mid.db)
  {
    hide Run, Midway, Finished;
    FinishPerforms(check, w, id, Setup(token, secret), between);
  }

  ghost predicate ConfirmsPending(check: Check, w: World, token: string, code: string, user: nat) {
    && SpeaksFor(w, token, user) && !w.db.users[user].enabled
    && w.db.users[user].pending.Some? && w.db.users[user].pending.value != ""
    && check(w.db.users[user].pending.value, code, w.now)
  }

  /** A code for the pending secret turns two-factor on with that very secret, even when
      another set-up replaced the pending one before the write. */
  lemma {:induction false} VerifyTakesEffect(check: Check, w: World, id: nat, token: string, code: string,
                                             between: seq<Step>, user: nat)
    requires Underway(w, id, between)
    ensures var r := Verify(token, code);
            var mid, end := Midway(check, w, id, r, between), Finished(check, w, id, r, between);
            && (ConfirmsPending(check, w, token, code, user) ==>
                  OnlyUser(mid.db, end.db, user, User(true, w.db.users[user].pending, None)))
            && (!ConfirmsPending(check, w, token, code, user) && user in mid.db.users ==>
                  user in end.db.users && end.db.users[user] == mid.db.users[user])
            && end.db.sessions == mid.db.sessions
  {
    hide Run, Midway, Finished;
    FinishPerforms(check, w, id, Verify(token, code), between);
  }

  ghost predicate MayDisable(check: Check, w: World, token: string, code: string, passwordOk: bool, user: nat) {
    && SpeaksFor(w, token, user) && w.db.users[user].enabled && passwordOk
    && w.db.users[user].secret.Some? && check(w.db.users[user].secret.value, code, w.now)
  }

  /** Password and code together turn it off and forget both secrets; anything less changes
      nothing. */
  lemma {:induction false} DisableTakesEffect(check: Check, w: World, id: nat, token: string, code: string,
                                              passwordOk: bool, between: seq<Step>, user: nat)
    requires Underway(w, id, between)
    ensures var r := Disable(token, code, passwordOk);
            var mid, end := Midway(check, w, id, r, between), Finished(check, w, id, r, between);
            && (MayDisable(check, w, token, code, passwordOk, user) ==>
                  OnlyUser(mid.db, end.db, user, User(false, None, None)))
            && (!MayDisable(check, w, token, code, passwordOk, user) && user in mid.db.users ==>
                  user in end.db.users && end.db.users[user] == mid.db.users[user])
            && end.db.sessions == mid.db.sessions
  {
    hide Run, Midway, Finished;
    FinishPerforms(check, w, id, Disable(token, code, passwordOk), between);
  }

  /** Deleting an account takes its sessions with it and nobody else's. */
  lemma {:induction false} DeletionTakesEffect(check: Check, w: World, id: nat, user: nat, between: seq<Step>)
    requires Underway(w, id, between)
    ensures var r := DeleteAccount(user);
            var mid, end := Midway(check, w, id, r, between), Finished(check, w, id, r, between);
            && end.db.users == mid.db.users - {user}
            && (forall t :: t in end.db.sessions <==> t in mid.db.sessions && mid.db.sessions[t].user != user)
            && (forall t :: t in end.db.sessions ==> end.db.sessions[t] == mid.db.sessions[t])
  {
    hide Run, Midway, Finished;
    FinishPerforms(check, w, id, DeleteAccount(user), between);
  }

  /** A clean-up deletes the rows that expired and those revoked more than seven days ago,
      and no others. */
  lemma {:induction false} CleanUpDeletesExactly(check: Check, w: World)
    ensures var end := Do(check, w, CleanUpTick);
            && end.db.users == w.db.users && end.tasks == w.tasks && end.now == w.now
            && (forall t :: t in end.db.sessions <==>
                  && t in w.db.sessions && w.now <= w.db.sessions[t].expiresAt
                  && (w.db.sessions[t].revokedAt.Some? ==> w.now <= w.db.sessions[t].revokedAt.value + 604800))
            && (forall t :: t in end.db.sessions ==> end.db.sessions[t] == w.db.sessions[t])
  {
  }

  // ---- Where a pending secret comes from ------------------------------------------------------

  lemma {:induction false} PerformPending(db: Tables, write: Write, now: nat, user: nat, secret: string)
    requires user in Perform(db, write, now).users
             && Perform(db, write, now).users[user].pending == Some(secret)
    ensures write == SetPending(user, secret) || (user in db.users && db.users[user].pending == Some(secret))
  {
  }

  lemma {:induction false} ReadSetsUp(check: Check, before: World, r: Request, user: nat, secret: string)
    requires Read(before.db, check, r, before.now) == SetPending(user, secret)
    ensures r.Setup? && r.secret == secret && SpeaksFor(before, r.token, user) && !before.db.users[user].enabled
  {
  }

  /** A pending secret was there at the start, or is what a full session of that very
      account, with two-factor off, was given to set up. */
  lemma {:induction false} PendingWasSetUp(check: Check, w: World, steps: seq<Step>, user: nat, secret: string)
    returns (i: nat)
    requires Initial(w)
    requires var end := Run(check, w, steps); user in end.db.users && end.db.users[user].pending == Some(secret)
    requires !(user in w.db.users && w.db.users[user].pending == Some(secret))
    ensures i < |steps| && steps[i].Begin? && steps[i].request.Setup? && steps[i].request.secret == secret
    ensures var before := Run(check, w, steps[..i]);
            SpeaksFor(before, steps[i].request.token, user) && !before.db.users[user].enabled
    decreases |steps|
  {
    hide Read, Perform, SpeaksFor;
    var init, last := steps[..|steps| - 1], steps[|steps| - 1];
    var mid := Run(check, w, init);
    if last.Finish? && last.id in mid.tasks {
      PerformPending(mid.db, mid.tasks[last.id], mid.now, user, secret);
    }
    if user in mid.db.users && mid.db.users[user].pending == Some(secret) {
      i := PendingWasSetUp(check, w, init, user, secret);
      assert init[..i] == steps[..i];
    } else {
      i := TaskWasRead(check, w, init, last.id);
      assert init[..i] == steps[..i];
      ReadSetsUp(check, Run(check, w, steps[..i]), steps[i].request, user, secret);
    }
  }
}
