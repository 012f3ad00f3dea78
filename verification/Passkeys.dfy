/** Passkey ceremonies: the single-use challenge store, and the handlers that finish a
    registration or a sign-in. */
module Passkeys {
  import opened Basics

  const LIFETIME: nat := 300

  datatype Challenge = Challenge(email: Option<string>, challenge: string, createdAt: nat)
  type Pending = map<string, Challenge>

  predicate Alive(c: Challenge, now: nat) {
    now < c.createdAt + LIFETIME
  }

  // ---- The challenge store ---------------------------------------------------------------

  function Reaped(pending: Pending, now: nat): Pending {
    map id | id in pending && Alive(pending[id], now) :: pending[id]
  }

  function Taken(pending: Pending, id: string, now: nat): Option<Challenge> {
    if id in pending && Alive(pending[id], now) then Some(pending[id]) else None
  }

  class ChallengeStore {
    var pending: Pending

    constructor ()
      ensures pending == map[]
    {
      pending := map[];
    }

    method Insert(id: string, email: Option<string>, challenge: string, now: nat)
      modifies this
      ensures pending == Reaped(old(pending), now)[id := Challenge(email, challenge, now)]
    {
      pending := map other | other in pending && Alive(pending[other], now) :: pending[other];
      pending := pending[id := Challenge(email, challenge, now)];
    }

    method Take(id: string, now: nat) returns (taken: Option<Challenge>)
      modifies this
      ensures pending == old(pending) - {id} && taken == Taken(old(pending), id, now)
    {
      if id !in pending {
        assert pending == pending - {id};
        return None;
      }
      var c := pending[id];
      pending := pending - {id};
      taken := if Alive(c, now) then Some(c) else None;
    }
  }

  datatype Op = Inserting(id: string, c: Challenge) | Taking(id: string, at: nat) {
    function Time(): nat {
      if Inserting? then c.createdAt else at
    }
  }

  function After(ops: seq<Op>): Pending {
    if ops == [] then map[]
    else
      var before := After(ops[..|ops| - 1]);
      match ops[|ops| - 1]
      case Inserting(id, c) => Reaped(before, c.createdAt)[id := c]
      case Taking(id, _) => before - {id}
  }

  /** What a log that never forgets says of an id: its last insertion, unless it was
      taken since. */
  function LogSays(ops: seq<Op>, id: string): Option<Challenge> {
    if ops == [] then None
    else
      var last := ops[|ops| - 1];
      if last.id == id then (if last.Inserting? then Some(last.c) else None)
      else LogSays(ops[..|ops| - 1], id)
  }

  ghost predicate Ordered(ops: seq<Op>, now: nat) {
    && (forall i, j :: 0 <= i < j < |ops| ==> ops[i].Time() <= ops[j].Time())
    && (forall i :: 0 <= i < |ops| ==> ops[i].Time() <= now)
  }

  /** Reaping on insert cannot be told from never reaping. */
  lemma {:induction false} ReapingIsInvisible(ops: seq<Op>, id: string, now: nat)
    requires Ordered(ops, now)
    ensures Taken(After(ops), id, now) == match LogSays(ops, id)
                                          case None => None
                                          case Some(c) => if Alive(c, now) then Some(c) else None
    ensures id in After(ops) ==> LogSays(ops, id) == Some(After(ops)[id])
    decreases |ops|
  {
    if ops == [] {
    } else {
      var last := ops[|ops| - 1];
      ReapingIsInvisible(ops[..|ops| - 1], id, last.Time());
      assert last.Time() <= now;
    }
  }

  /** A take succeeds exactly for an id inserted less than 300 seconds ago that no later
      operation took or replaced. */
  lemma {:induction false} TakeSucceedsExactly(ops: seq<Op>, id: string, now: nat)
    requires Ordered(ops, now)
    ensures Taken(After(ops), id, now).Some? <==>
            exists i :: 0 <= i < |ops| && LastOf(ops, id, i) && ops[i].Inserting? && Alive(ops[i].c, now)
  {
    ReapingIsInvisible(ops, id, now);
    LogSaysLast(ops, id);
  }

  ghost predicate LastOf(ops: seq<Op>, id: string, i: nat) {
    i < |ops| && ops[i].id == id && forall j :: i < j < |ops| ==> ops[j].id != id
  }

  lemma {:induction false} LogSaysLast(ops: seq<Op>, id: string)
    ensures forall i: nat :: LastOf(ops, id, i) ==>
              LogSays(ops, id) == if ops[i].Inserting? then Some(ops[i].c) else None
    ensures LogSays(ops, id).Some? ==> exists i: nat :: LastOf(ops, id, i)
    decreases |ops|
  {
    if ops == [] {
    } else {
      var n := |ops| - 1;
      if ops[n].id == id {
        assert LastOf(ops, id, n);
      } else {
        LogSaysLast(ops[..n], id);
        forall i: nat | LastOf(ops, id, i)
          ensures LastOf(ops[..n], id, i)
        {
          assert i != n;
        }
        if LogSays(ops, id).Some? {
          var i: nat :| LastOf(ops[..n], id, i);
          assert LastOf(ops, id, i);
        }
      }
    }
  }

  // ---- Finishing a ceremony -----------------------------------------------------------------

  datatype Passkey = Passkey(user: nat, key: string, signCount: nat, revoked: bool)
  datatype State = State(emails: map<nat, string>, pending: Pending, passkeys: map<string, Passkey>)
  datatype Outcome = Refused | Done(user: nat)

  /** The counter moves forward, unless either side does not keep one. */
  predicate CounterAccepted(stored: nat, asserted: nat) {
    asserted == 0 || stored == 0 || asserted > stored
  }

  function Registered(s: State, ceremony: string, user: nat, credential: string, passkey: Passkey,
                      verified: bool, now: nat): (State, Outcome)
  {
    var taken := Taken(s.pending, ceremony, now);
    var used := s.(pending := s.pending - {ceremony});
    if taken.None? || user !in s.emails || taken.value.email != Some(s.emails[user]) then (used, Refused)
    else if !verified || credential in s.passkeys then (used, Refused)
    else (used.(passkeys := s.passkeys[credential := passkey]), Done(user))
  }

  function SignedIn(s: State, ceremony: string, credential: string, count: nat, verified: bool, now: nat)
    : (State, Outcome)
  {
    var taken := Taken(s.pending, ceremony, now);
    var used := s.(pending := s.pending - {ceremony});
    if taken.None? || credential !in s.passkeys || s.passkeys[credential].revoked then (used, Refused)
    else
      var stored := s.passkeys[credential];
      var email := taken.value.email;
      if email.Some? && !(stored.user in s.emails && s.emails[stored.user] == email.value) then (used, Refused)
      else if !verified || !CounterAccepted(stored.signCount, count) then (used, Refused)
      else (used.(passkeys := s.passkeys[credential := stored.(signCount := count)]), Done(stored.user))
  }

  class PasskeyServer {
    const store: ChallengeStore
    var emails: map<nat, string>
    var passkeys: map<string, Passkey>

    ghost function View(): State
      reads this, store
    {
      State(emails, store.pending, passkeys)
    }

    constructor (emails: map<nat, string>)
      ensures View() == State(emails, map[], map[]) && fresh(store)
    {
      store := new ChallengeStore();
      this.emails := emails;
      passkeys := map[];
    }

    /** `verified` says whether the attestation or assertion checked out against the
        ceremony's challenge. A credential id already used, even by a revoked passkey,
        is refused (by the unique column if not by the look-up). */
    method RegisterFinish(ceremony: string, user: nat, credential: string, key: string, count: nat, verified: bool,
                          now: nat)
      returns (outcome: Outcome)
      modifies this, store
      ensures (View(), outcome)
           == Registered(old(View()), ceremony, user, credential, Passkey(user, key, count, false), verified, now)
    {
      var taken := store.Take(ceremony, now);
      if taken.None? || user !in emails { return Refused; }
      if taken.value.email != Some(emails[user]) || !verified { return Refused; }
      if credential in passkeys && !passkeys[credential].revoked { return Refused; }
      if credential in passkeys { return Refused; }
      passkeys := passkeys[credential := Passkey(user, key, count, false)];
      return Done(user);
    }

    method LoginFinish(ceremony: string, credential: string, count: nat, verified: bool, now: nat)
      returns (outcome: Outcome)
      modifies this, store
      ensures (View(), outcome) == SignedIn(old(View()), ceremony, credential, count, verified, now)
    {
      var taken := store.Take(ceremony, now);
      if taken.None? || credential !in passkeys { return Refused; }
      var stored := passkeys[credential];
      if stored.revoked { return Refused; }
      if taken.value.email.Some? {
        if stored.user !in emails || emails[stored.user] != taken.value.email.value { return Refused; }
      }
      if count != 0 && stored.signCount != 0 && count <= stored.signCount { return Refused; }
      if !verified { return Refused; }
      passkeys := passkeys[credential := stored.(signCount := count)];
      return Done(stored.user);
    }
  }

  // ---- Runs ------------------------------------------------------------------------------------

  datatype Step =
    | Options(id: string, email: Option<string>, challenge: string, now: nat)
    | Register(id: string, user: nat, credential: string, key: string, count: nat, verified: bool, now: nat)
    | Login(id: string, credential: string, count: nat, verified: bool, now: nat)
    | Revoke(credential: string)
    | DeleteUser(user: nat)

  /** Deleting an account cascades to its passkeys; challenges are not in the database. */
  function WithoutUser(s: State, user: nat): State {
    s.(emails := s.emails - {user},
       passkeys := map c | c in s.passkeys && s.passkeys[c].user != user :: s.passkeys[c])
  }

  function Do(s: State, step: Step): (State, Outcome) {
    match step
    case Options(id, email, challenge, now) =>
      (s.(pending := Reaped(s.pending, now)[id := Challenge(email, challenge, now)]), Refused)
    case Register(id, user, credential, key, count, verified, now) =>
      Registered(s, id, user, credential, Passkey(user, key, count, false), verified, now)
    case Login(id, credential, count, verified, now) => SignedIn(s, id, credential, count, verified, now)
    case Revoke(credential) =>
      if credential !in s.passkeys then (s, Refused)
      else (s.(passkeys := s.passkeys[credential := s.passkeys[credential].(revoked := true)]), Refused)
    case DeleteUser(user) => (WithoutUser(s, user), Refused)
  }

  function Run(s: State, steps: seq<Step>): State {
    if steps == [] then s else Do(Run(s, steps[..|steps| - 1]), steps[|steps| - 1]).0
  }

  /** Step i of the run finished its ceremony. */
  ghost predicate Completed(s: State, steps: seq<Step>, i: nat) {
    i < |steps| && Do(Run(s, steps[..i]), steps[i]).1.Done?
  }

  ghost predicate SignsIn(s: State, steps: seq<Step>, i: nat, credential: string) {
    Completed(s, steps, i) && steps[i].Login? && steps[i].credential == credential
  }

  function OpsOf(steps: seq<Step>): seq<Op> {
    if steps == [] then []
    else
      var before := OpsOf(steps[..|steps| - 1]);
      match steps[|steps| - 1]
      case Options(id, email, challenge, now) => before + [Inserting(id, Challenge(email, challenge, now))]
      case Register(id, _, _, _, _, _, now) => before + [Taking(id, now)]
      case Login(id, _, _, _, now) => before + [Taking(id, now)]
      case Revoke(_) => before
      case DeleteUser(_) => before
  }

  /** Every handler takes its challenge before it looks at anything else. */
  lemma {:induction false} StepPending(s: State, step: Step)
    ensures Do(s, step).0.pending == match step
                                     case Options(id, email, challenge, now) =>
                                       Reaped(s.pending, now)[id := Challenge(email, challenge, now)]
                                     case Register(id, _, _, _, _, _, _) => s.pending - {id}
                                     case Login(id, _, _, _, _) => s.pending - {id}
                                     case Revoke(_) => s.pending
                                     case DeleteUser(_) => s.pending
  {
    hide Reaped, Taken, CounterAccepted;
  }

  lemma {:induction false} PendingIsLog(s: State, steps: seq<Step>)
    requires s.pending == map[]
    ensures Run(s, steps).pending == After(OpsOf(steps))
    decreases |steps|
  {
    hide Do, Reaped;
    if steps == [] {
    } else {
      var init, last := steps[..|steps| - 1], steps[|steps| - 1];
      PendingIsLog(s, init);
      StepPending(Run(s, init), last);
      if !last.Revoke? && !last.DeleteUser? {
        assert OpsOf(steps)[..|OpsOf(steps)| - 1] == OpsOf(init);
      }
    }
  }

  /** After a take of an id, the store does not hold it until it is issued again. */
  lemma {:induction false} GoneUntilIssued(s: State, steps: seq<Step>, i: nat, id: string)
    requires i < |steps| && (steps[i].Register? || steps[i].Login?) && steps[i].id == id
    requires forall k :: i < k < |steps| ==> !(steps[k].Options? && steps[k].id == id)
    ensures id !in Run(s, steps).pending
    decreases |steps|
  {
    var init := steps[..|steps| - 1];
    if i < |init| { GoneUntilIssued(s, init, i, id); }
  }

  /** A ceremony never completes twice: between two completions under one id, that id
      was issued anew, which fresh random ids never are. */
  lemma {:induction false} CompletesOnce(s: State, steps: seq<Step>, i: nat, j: nat)
    requires i < j && Completed(s, steps, i) && Completed(s, steps, j)
    requires (steps[i].Register? || steps[i].Login?) && (steps[j].Register? || steps[j].Login?)
    requires steps[i].id == steps[j].id
    ensures exists k :: i < k < j && steps[k].Options? && steps[k].id == steps[i].id
  {
    if forall k :: i < k < j ==> !(steps[k].Options? && steps[k].id == steps[i].id) {
      GoneUntilIssued(s, steps[..j], i, steps[i].id);
      assert false;
    }
  }

  /** Issuing step k is for the account that step completes the ceremony for: always in a
      registration, and in a sign-in that named an address. */
  ghost predicate ForSameAccount(before: State, issuing: Step, step: Step)
    requires issuing.Options?
  {
    match step
    case Register(_, user, _, _, _, _, _) => user in before.emails && issuing.email == Some(before.emails[user])
    case Login(_, credential, _, _, _) =>
      credential in before.passkeys &&
      (issuing.email.Some? ==> before.passkeys[credential].user in before.emails
                               && issuing.email == Some(before.emails[before.passkeys[credential].user]))
    case _ => true
  }

  /** Every completed ceremony was issued less than 300 seconds before, to the account it
      completes for. */
  lemma {:induction false} CompletedWasIssued(s: State, steps: seq<Step>, i: nat) returns (k: nat)
    requires s.pending == map[] && Completed(s, steps, i) && (steps[i].Register? || steps[i].Login?)
    requires Ordered(OpsOf(steps[..i]), steps[i].now)
    ensures k < i && steps[k].Options? && steps[k].id == steps[i].id && steps[i].now < steps[k].now + LIFETIME
    ensures ForSameAccount(Run(s, steps[..i]), steps[k], steps[i])
  {
    var before, id := steps[..i], steps[i].id;
    PendingIsLog(s, before);
    hide Run, After, OpsOf, LogSays;
    ReapingIsInvisible(OpsOf(before), id, steps[i].now);
    k := IssuedAt(before, id);
    assert before[k] == steps[k];
  }

  lemma {:induction false} IssuedAt(steps: seq<Step>, id: string) returns (k: nat)
    requires LogSays(OpsOf(steps), id).Some?
    ensures k < |steps| && steps[k].Options? && steps[k].id == id
    ensures LogSays(OpsOf(steps), id).value == Challenge(steps[k].email, steps[k].challenge, steps[k].now)
    decreases |steps|
  {
    var init, last := steps[..|steps| - 1], steps[|steps| - 1];
    if last.Options? && last.id == id {
      k := |steps| - 1;
    } else {
      if !last.Revoke? && !last.DeleteUser? { assert OpsOf(steps)[..|OpsOf(steps)| - 1] == OpsOf(init); }
      k := IssuedAt(init, id);
    }
  }

  ghost predicate Spares(steps: seq<Step>, user: nat, from: nat, to: nat) {
    forall k :: from <= k < to && k < |steps| ==> steps[k] != DeleteUser(user)
  }

  /** Whose passkey a credential is, its key and its revocation never change, unless the
      owner's account is deleted. */
  lemma {:induction false} OwnerStays(s: State, steps: seq<Step>, credential: string)
    requires credential in s.passkeys && Spares(steps, s.passkeys[credential].user, 0, |steps|)
    ensures credential in Run(s, steps).passkeys
    ensures Run(s, steps).passkeys[credential].user == s.passkeys[credential].user
         && Run(s, steps).passkeys[credential].key == s.passkeys[credential].key
    ensures s.passkeys[credential].revoked ==> Run(s, steps).passkeys[credential].revoked
    decreases |steps|
  {
    if steps == [] {
    } else {
      var init := steps[..|steps| - 1];
      assert forall k :: 0 <= k < |init| ==> init[k] == steps[k];
      OwnerStays(s, init, credential);
      StepKeepsOwner(Run(s, init), steps[|steps| - 1], credential);
    }
  }

  lemma {:induction false} StepKeepsOwner(s: State, step: Step, credential: string)
    requires credential in s.passkeys && step != DeleteUser(s.passkeys[credential].user)
    ensures var after := Do(s, step).0.passkeys;
            && credential in after && after[credential].user == s.passkeys[credential].user
            && after[credential].key == s.passkeys[credential].key
            && (s.passkeys[credential].revoked ==> after[credential].revoked)
  {
    hide Taken, Reaped;
  }

  /** Once the owner's account is deleted, anyone else may register the credential id, with
      another key and a lower counter. */
  lemma {:induction false} DeletionFreesCredential(s: State, owner: nat, other: nat, credential: string,
                                                   key: string, count: nat,
                                                   id: string, challenge: string, now: nat)
    requires credential in s.passkeys && s.passkeys[credential].user == owner
    requires other in s.emails && other != owner
    ensures var steps := [DeleteUser(owner), Options(id, Some(s.emails[other]), challenge, now),
                          Register(id, other, credential, key, count, true, now)];
            Completed(s, steps, 2) && Run(s, steps).passkeys[credential] == Passkey(other, key, count, false)
  {
    var steps := [DeleteUser(owner), Options(id, Some(s.emails[other]), challenge, now),
                  Register(id, other, credential, key, count, true, now)];
    assert steps[..3] == steps && steps[..2][..1] == [steps[0]] && [steps[0]][..0] == [];
    var gone := WithoutUser(s, owner);
    assert Run(s, [steps[0]]) == gone;
    var issued := Do(gone, steps[1]).0;
    assert Run(s, steps[..2]) == issued;
    assert Taken(issued.pending, id, now) == Some(Challenge(Some(s.emails[other]), challenge, now));
    assert Do(issued, steps[2]) ==
           (issued.(pending := issued.pending - {id},
                    passkeys := issued.passkeys[credential := Passkey(other, key, count, false)]),
            Done(other));
  }

  /** No sign-in with this passkey that the run accepts from step `from` on asserts zero. */
  ghost predicate Counting(s: State, steps: seq<Step>, credential: string, from: nat) {
    forall k :: from <= k < |steps| && SignsIn(s, steps, k, credential) ==> steps[k].count != 0
  }

  lemma {:induction false} StepKeepsCounter(s: State, step: Step, credential: string)
    requires credential in s.passkeys && step != DeleteUser(s.passkeys[credential].user)
    requires step.Login? && step.credential == credential && Do(s, step).1.Done? ==> step.count != 0
    ensures var after := Do(s, step).0.passkeys;
            credential in after && s.passkeys[credential].signCount <= after[credential].signCount
  {
    hide Taken, Reaped;
  }

  /** While no accepted sign-in asserts zero and the owner is not deleted, the stored
      counter never goes back. */
  lemma {:induction false} CounterKeepsUp(s: State, steps: seq<Step>, credential: string, from: nat)
    requires from <= |steps| && Counting(s, steps, credential, from)
    requires credential in Run(s, steps[..from]).passkeys
    requires Spares(steps, Run(s, steps[..from]).passkeys[credential].user, from, |steps|)
    ensures credential in Run(s, steps).passkeys
    ensures Run(s, steps).passkeys[credential].user == Run(s, steps[..from]).passkeys[credential].user
    ensures Run(s, steps[..from]).passkeys[credential].signCount <= Run(s, steps).passkeys[credential].signCount
    decreases |steps|
  {
    hide Do;
    if from == |steps| {
      assert steps[..from] == steps;
    } else {
      var n := |steps| - 1;
      var init := steps[..n];
      assert init[..from] == steps[..from];
      forall k | from <= k < n && SignsIn(s, init, k, credential)
        ensures init[k].count != 0
      {
        assert init[..k] == steps[..k] && SignsIn(s, steps, k, credential);
      }
      assert forall k :: 0 <= k < n ==> init[k] == steps[k];
      CounterKeepsUp(s, init, credential, from);
      assert SignsIn(s, steps, n, credential) ==> steps[n].count != 0;
      StepKeepsOwner(Run(s, init), steps[n], credential);
      StepKeepsCounter(Run(s, init), steps[n], credential);
    }
  }

  lemma {:induction false} SignInStores(s: State, step: Step)
    requires step.Login? && Do(s, step).1.Done?
    ensures step.credential in s.passkeys && CounterAccepted(s.passkeys[step.credential].signCount, step.count)
    ensures Do(s, step).0.passkeys
         == s.passkeys[step.credential := s.passkeys[step.credential].(signCount := step.count)]
  {
  }

  /** Between two accepted sign-ins with a credential of one owner, none of which asserts
      zero, the counter strictly increases; so no counter is accepted twice while the
      account exists. */
  lemma {:induction false} CountersIncrease(s: State, steps: seq<Step>, credential: string, i: nat, j: nat)
    requires i < j && SignsIn(s, steps, i, credential) && SignsIn(s, steps, j, credential)
    requires Counting(s, steps, credential, i)
    requires credential in Run(s, steps[..i]).passkeys ==>
             Spares(steps, Run(s, steps[..i]).passkeys[credential].user, i, j)
    ensures steps[i].count < steps[j].count
  {
    hide Do, Run;
    var before := steps[..j];
    assert before[..i + 1] == steps[..i + 1] && steps[..i + 1][..i] == steps[..i];
    RunLast(s, steps[..i + 1]);
    SignInStores(Run(s, steps[..i]), steps[i]);
    SignInStores(Run(s, before), steps[j]);
    forall k | i + 1 <= k < j && SignsIn(s, before, k, credential)
      ensures before[k].count != 0
    {
      assert before[..k] == steps[..k] && SignsIn(s, steps, k, credential);
    }
    assert forall k :: 0 <= k < j ==> before[k] == steps[k];
    CounterKeepsUp(s, before, credential, i + 1);
    assert steps[i].count != 0;
  }

  lemma RunLast(s: State, steps: seq<Step>)
    requires steps != []
    ensures Run(s, steps) == Do(Run(s, steps[..|steps| - 1]), steps[|steps| - 1]).0
  {
  }

  /** And every accepted counter exceeds the registered one. */
  lemma {:induction false} CountersExceedRegistered(s: State, steps: seq<Step>, credential: string, j: nat)
    requires credential in s.passkeys && SignsIn(s, steps, j, credential) && Counting(s, steps, credential, 0)
    requires Spares(steps, s.passkeys[credential].user, 0, j)
    ensures s.passkeys[credential].signCount < steps[j].count
  {
    hide Do;
    var before := steps[..j];
    assert before[..0] == [] && before[..0] == steps[..0];
    SignInStores(Run(s, before), steps[j]);
    forall k | 0 <= k < j && SignsIn(s, before, k, credential)
      ensures before[k].count != 0
    {
      assert before[..k] == steps[..k] && SignsIn(s, steps, k, credential);
    }
    assert forall k :: 0 <= k < j ==> before[k] == steps[k];
    CounterKeepsUp(s, before, credential, 0);
  }
}
