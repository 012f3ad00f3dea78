/** Exactly when a passkey ceremony completes, read off the steps of the run before it, and
    what it then changes. */
module PasskeyCompletion {
  import opened Basics
  import opened Passkeys

  // ---- The challenge a ceremony finds ---------------------------------------------------

  predicate Touches(step: Step, id: string) {
    (step.Options? || step.Register? || step.Login?) && step.id == id
  }

  /** Step k issued the ceremony and nothing since took it or issued it again. */
  ghost predicate IssuedAndUntaken(steps: seq<Step>, id: string, k: nat) {
    && k < |steps| && steps[k].Options? && steps[k].id == id
    && forall j :: k < j < |steps| ==> !Touches(steps[j], id)
  }

  function ChallengeOf(step: Step): Challenge
    requires step.Options?
  {
    Challenge(step.email, step.challenge, step.now)
  }

  lemma {:induction false} OpsGrow(steps: seq<Step>)
    requires steps != []
    ensures var init, last := steps[..|steps| - 1], steps[|steps| - 1];
            if last.Revoke? || last.DeleteUser? then OpsOf(steps) == OpsOf(init)
            else
              && |OpsOf(steps)| == |OpsOf(init)| + 1 && OpsOf(steps)[..|OpsOf(init)|] == OpsOf(init)
              && OpsOf(steps)[|OpsOf(init)|] ==
                 if last.Options? then Inserting(last.id, ChallengeOf(last)) else Taking(last.id, last.now)
  {
  }

  lemma {:induction false} LogSaysIssued(steps: seq<Step>, id: string)
    ensures forall k: nat :: IssuedAndUntaken(steps, id, k) ==>
              LogSays(OpsOf(steps), id) == Some(ChallengeOf(steps[k]))
    ensures LogSays(OpsOf(steps), id).Some? ==> exists k: nat :: IssuedAndUntaken(steps, id, k)
    decreases |steps|
  {
    hide OpsOf;
    if steps == [] {
      assert OpsOf(steps) == [] by { NoOps(); }
    } else {
      var n := |steps| - 1;
      var init, last := steps[..n], steps[n];
      OpsGrow(steps);
      LogSaysIssued(init, id);
      forall k: nat | IssuedAndUntaken(steps, id, k)
        ensures LogSays(OpsOf(steps), id) == Some(ChallengeOf(steps[k]))
      {
        if k < n { assert IssuedAndUntaken(init, id, k); }
      }
      if LogSays(OpsOf(steps), id).Some? {
        if Touches(last, id) {
          assert IssuedAndUntaken(steps, id, n);
        } else {
          var k: nat :| IssuedAndUntaken(init, id, k);
          assert IssuedAndUntaken(steps, id, k);
        }
      }
    }
  }

  lemma NoOps()
    ensures OpsOf([]) == []
  {
  }

  /** A ceremony finds its challenge exactly when a step issued it less than 300 seconds ago
      and none has taken or replaced it since. */
  lemma {:induction false} TakesWhatWasIssued(s: State, before: seq<Step>, id: string, now: nat)
    requires s.pending == map[] && Ordered(OpsOf(before), now)
    ensures forall c :: Taken(Run(s, before).pending, id, now) == Some(c) <==>
              exists k: nat :: IssuedAndUntaken(before, id, k) && c == ChallengeOf(before[k])
                               && now < before[k].now + 300
  {
    hide Run, OpsOf, After, LogSays, IssuedAndUntaken, Ordered, Taken;
    PendingIsLog(s, before);
    ReapingIsInvisible(OpsOf(before), id, now);
    LogSaysIssued(before, id);
    forall k: nat | IssuedAndUntaken(before, id, k)
      ensures k < |before| && before[k].Options?
    {
      IssueIsOptions(before, id, k);
    }
  }

  lemma IssueIsOptions(steps: seq<Step>, id: string, k: nat)
    requires IssuedAndUntaken(steps, id, k)
    ensures k < |steps| && steps[k].Options?
  {
  }

  // ---- Signing in -----------------------------------------------------------------------------

  /** The stored passkey is live, belongs to the address the challenge named, if it named one,
      the assertion checked out, and its counter went forward or is not kept. */
  ghost predicate AssertionHolds(before: State, step: Step, issue: Step)
    requires step.Login? && issue.Options?
  {
    && step.credential in before.passkeys
    && var stored := before.passkeys[step.credential];
       && !stored.revoked && step.verified
       && (step.count == 0 || stored.signCount == 0 || step.count > stored.signCount)
       && (issue.email.Some? ==> stored.user in before.emails && before.emails[stored.user] == issue.email.value)
  }

  lemma {:induction false} LoginIs(before: State, step: Step)
    requires step.Login?
    ensures Do(before, step).1.Done? <==>
            var taken := Taken(before.pending, step.id, step.now);
            && taken.Some?
            && AssertionHolds(before, step, Options(step.id, taken.value.email, taken.value.challenge,
                taken.value.createdAt))
    ensures Do(before, step).0.emails == before.emails
    ensures if Do(before, step).1.Done? then
              var stored := before.passkeys[step.credential];
              && Do(before, step).1 == Done(stored.user)
              && Do(before, step).0.passkeys
                 == before.passkeys[step.credential := Passkey(stored.user, stored.key, step.count, stored.revoked)]
            else Do(before, step).0.passkeys == before.passkeys
  {
    hide Taken;
  }

  /** A sign-in completes exactly when its challenge was issued less than 300 seconds ago and
      not used since, and the assertion holds for a live passkey of the account it was
      issued to. It then signs in the owner and stores the counter; else it changes no
      passkey. */
  lemma {:induction false} LoginCompletesExactly(s: State, steps: seq<Step>, i: nat)
    requires s.pending == map[] && i < |steps| && steps[i].Login? && Ordered(OpsOf(steps[..i]), steps[i].now)
    ensures var before, step := Run(s, steps[..i]), steps[i];
            var (after, outcome) := Do(before, step);
            && (Completed(s, steps, i) <==>
                exists k: nat :: IssuedAndUntaken(steps[..i], step.id, k) && step.now < steps[k].now + 300
                                 && AssertionHolds(before, step, steps[k]))
            && (if Completed(s, steps, i) then
                  && outcome == Done(before.passkeys[step.credential].user)
                  && after.passkeys == before.passkeys[step.credential :=
                                         before.passkeys[step.credential].(signCount := step.count)]
                else after.passkeys == before.passkeys)
            && after.emails == before.emails
  {
    hide Run, Do, OpsOf, Ordered, IssuedAndUntaken, AssertionHolds;
    var init, step := steps[..i], steps[i];
    var before := Run(s, init);
    TakesWhatWasIssued(s, init, step.id, step.now);
    LoginIs(before, step);
    var taken := Taken(before.pending, step.id, step.now);
    forall k: nat | IssuedAndUntaken(init, step.id, k)
      ensures k < i && steps[k].Options? && init[k] == steps[k]
    {
      IssueIsOptions(init, step.id, k);
    }
    forall k: nat | IssuedAndUntaken(init, step.id, k) && step.now < steps[k].now + 300
      ensures taken == Some(ChallengeOf(steps[k]))
      ensures AssertionHolds(before, step, steps[k]) <==> Do(before, step).1.Done?
    {
      assert taken == Some(ChallengeOf(init[k]));
      OnlyEmailMatters(before, step, steps[k],
                       Options(step.id, taken.value.email, taken.value.challenge, taken.value.createdAt));
    }
    if taken.Some? {
      var k: nat :| IssuedAndUntaken(init, step.id, k) && taken.value == ChallengeOf(init[k])
                    && step.now < init[k].now + 300;
    }
  }

  lemma OnlyEmailMatters(before: State, step: Step, issue: Step, other: Step)
    requires step.Login? && issue.Options? && other.Options? && issue.email == other.email
    ensures AssertionHolds(before, step, issue) == AssertionHolds(before, step, other)
  {
  }

  // ---- Registering ----------------------------------------------------------------------------

  /** The challenge was issued to the caller's own address, the attestation checked out, and
      the credential is new to everybody. */
  ghost predicate AttestationHolds(before: State, step: Step, email: Option<string>)
    requires step.Register?
  {
    && step.user in before.emails && email == Some(before.emails[step.user])
    && step.verified && step.credential !in before.passkeys
  }

  lemma {:induction false} RegisterIs(before: State, step: Step)
    requires step.Register?
    ensures Do(before, step).1.Done? <==>
            var taken := Taken(before.pending, step.id, step.now);
            taken.Some? && AttestationHolds(before, step, taken.value.email)
    ensures Do(before, step).0.emails == before.emails
    ensures if Do(before, step).1.Done? then
              && Do(before, step).1 == Done(step.user)
              && Do(before, step).0.passkeys
                 == before.passkeys[step.credential := Passkey(step.user, step.key, step.count, false)]
            else Do(before, step).0.passkeys == before.passkeys
  {
    hide Taken;
  }

  /** A registration completes exactly when its challenge was issued to the caller's address
      less than 300 seconds ago and not used since, the attestation checked out and no
      passkey, revoked or not, has the credential id. It then adds that passkey to the
      caller's account; else it changes none. */
  lemma {:induction false} RegisterCompletesExactly(s: State, steps: seq<Step>, i: nat)
    requires s.pending == map[] && i < |steps| && steps[i].Register? && Ordered(OpsOf(steps[..i]), steps[i].now)
    ensures var before, step := Run(s, steps[..i]), steps[i];
            var (after, outcome) := Do(before, step);
            && (Completed(s, steps, i) <==>
                exists k: nat :: IssuedAndUntaken(steps[..i], step.id, k) && step.now < steps[k].now + 300
                                 && AttestationHolds(before, step, steps[k].email))
            && (if Completed(s, steps, i) then
                  && outcome == Done(step.user)
                  && after.passkeys ==
                     before.passkeys[step.credential := Passkey(step.user, step.key, step.count, false)]
                else after.passkeys == before.passkeys)
            && after.emails == before.emails
  {
    hide Run, Do, OpsOf, Ordered, IssuedAndUntaken, AttestationHolds;
    var init, step := steps[..i], steps[i];
    var before := Run(s, init);
    TakesWhatWasIssued(s, init, step.id, step.now);
    RegisterIs(before, step);
    var taken := Taken(before.pending, step.id, step.now);
    forall k: nat | IssuedAndUntaken(init, step.id, k)
      ensures k < i && steps[k].Options? && init[k] == steps[k]
    {
      IssueIsOptions(init, step.id, k);
    }
    forall k: nat | IssuedAndUntaken(init, step.id, k) && step.now < steps[k].now + 300
      ensures taken == Some(ChallengeOf(steps[k]))
    {
      assert taken == Some(ChallengeOf(init[k]));
    }
    if taken.Some? {
      var k: nat :| IssuedAndUntaken(init, step.id, k) && taken.value == ChallengeOf(init[k])
                    && step.now < init[k].now + 300;
    }
  }

  // ---- Revoking -------------------------------------------------------------------------------

  lemma {:induction false} RevokeIs(before: State, credential: string)
    ensures var after := Do(before, Revoke(credential)).0;
            && after.passkeys.Keys == before.passkeys.Keys && after.pending == before.pending
            && forall c :: c in before.passkeys ==>
                 if c == credential then after.passkeys[c] == before.passkeys[c].(revoked := true)
                 else after.passkeys[c] == before.passkeys[c]
  {
  }

  lemma {:induction false} RevokedLater(s: State, steps: seq<Step>, credential: string, i: nat)
    requires i < |steps| && steps[i] == Revoke(credential) && credential in Run(s, steps[..i]).passkeys
    requires Spares(steps, Run(s, steps[..i]).passkeys[credential].user, i, |steps|)
    ensures var end := Run(s, steps).passkeys;
            && credential in end && end[credential].revoked
            && end[credential].user == Run(s, steps[..i]).passkeys[credential].user
    decreases |steps|
  {
    hide Do;
    var n := |steps| - 1;
    var init := steps[..n];
    if i == n {
      RevokeIs(Run(s, init), credential);
      StepKeepsOwner(Run(s, init), steps[n], credential);
    } else {
      assert init[..i] == steps[..i];
      assert forall k :: 0 <= k < n ==> init[k] == steps[k];
      RevokedLater(s, init, credential, i);
      StepKeepsOwner(Run(s, init), steps[n], credential);
    }
  }

  /** A revoked passkey never signs anyone in again while its owner's account exists. */
  lemma {:induction false} RevokedNeverSignsIn(s: State, steps: seq<Step>, credential: string, i: nat, j: nat)
    requires i < j < |steps| && steps[i] == Revoke(credential) && credential in Run(s, steps[..i]).passkeys
    requires Spares(steps, Run(s, steps[..i]).passkeys[credential].user, i, j)
    ensures !SignsIn(s, steps, j, credential)
  {
    hide Run, Do;
    var init := steps[..j];
    assert init[..i] == steps[..i];
    assert forall k :: 0 <= k < j ==> init[k] == steps[k];
    RevokedLater(s, init, credential, i);
    if steps[j].Login? { LoginIs(Run(s, init), steps[j]); }
  }

  // ---- Deleting the owner ---------------------------------------------------------------------

  /** Deleting an account removes it and exactly its own passkeys; ceremonies stay pending. */
  lemma {:induction false} DeletionTakesPasskeys(before: State, user: nat)
    ensures var after := Do(before, DeleteUser(user)).0;
            && after.emails == before.emails - {user} && after.pending == before.pending
            && (forall c :: c in after.passkeys <==> c in before.passkeys && before.passkeys[c].user != user)
            && (forall c :: c in after.passkeys ==> after.passkeys[c] == before.passkeys[c])
  {
  }

  lemma {:induction false} GoneStaysGone(s: State, steps: seq<Step>, user: nat)
    requires user !in s.emails
    ensures user !in Run(s, steps).emails
    decreases |steps|
  {
    hide Taken, Reaped;
    if steps == [] {
    } else {
      GoneStaysGone(s, steps[..|steps| - 1], user);
    }
  }

  /** After it no ceremony, also one begun before, registers a passkey for that account. */
  lemma {:induction false} DeletedNeverRegisters(s: State, steps: seq<Step>, user: nat, i: nat, j: nat)
    requires i < j < |steps| && steps[i] == DeleteUser(user)
    requires steps[j].Register? && steps[j].user == user
    ensures !Completed(s, steps, j)
  {
    hide Run, Do;
    var gone := Run(s, steps[..i + 1]);
    assert steps[..i + 1][..i] == steps[..i];
    RunLast(s, steps[..i + 1]);
    DeletionTakesPasskeys(Run(s, steps[..i]), user);
    assert steps[..i + 1] + steps[i + 1..j] == steps[..j];
    RunOn(s, steps[..i + 1], steps[i + 1..j]);
    GoneStaysGone(gone, steps[i + 1..j], user);
    RegisterIs(Run(s, steps[..j]), steps[j]);
  }

  lemma {:induction false} RunOn(s: State, steps: seq<Step>, more: seq<Step>)
    ensures Run(s, steps + more) == Run(Run(s, steps), more)
    decreases |more|
  {
    hide Do;
    if more == [] {
      assert steps + more == steps;
    } else {
      var n := |more| - 1;
      assert (steps + more)[..|steps + more| - 1] == steps + more[..n];
      RunOn(s, steps, more[..n]);
    }
  }
}
