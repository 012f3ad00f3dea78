/** The main results about the vault protocol, for every careful run of any number
    of tabs from a new or a legacy account. */
module VaultTheorems {
  import opened Basics
  import opened VaultTerms
  import opened VaultServer
  import opened VaultTab
  import opened VaultProtocol
  import opened VaultSafety

  ghost predicate Reaches(s: System, steps: seq<Step>, e: System) {
    Initial(s) && CarefulRun(s, steps) && e == Run(s, steps)
  }

  lemma {:induction false} ReachedIsSafe(s: System, steps: seq<Step>, e: System)
    requires Reaches(s, steps, e)
    ensures Safe(e) && s.log <= e.log
  {
    InitialIsSafe(s);
    RunKeepsSafe(s, steps);
  }

  /** No lost update: every edit in an accepted snapshot is in all later ones, in
      the same order, whatever the tabs, the network and the prune do in between. */
  lemma {:induction false} NoLostUpdate(s: System, steps: seq<Step>, e: System)
    requires Reaches(s, steps, e)
    ensures s.log <= e.log
    ensures forall i, j :: 0 <= i <= j < |e.log| ==> e.log[i].doc.trail <= e.log[j].doc.trail
  {
    ReachedIsSafe(s, steps, e);
    forall i, j | 0 <= i <= j < |e.log|
      ensures e.log[i].doc.trail <= e.log[j].doc.trail
    {
      assert Precedes(e.log[i], e.log[j]);
    }
  }

  /** The newest snapshot opens under the key both stored wraps hold, or, without a
      kek_wrap, under the very derived key of the first one; a recovery wrap never stands
      alone. */
  lemma {:induction false} StoredWrapsOpenNewest(s: System, steps: seq<Step>, e: System)
    requires Reaches(s, steps, e)
    ensures e.log != [] ==> Newest(e.server.snapshots) == Some(Snapshot(|e.log|, e.log[|e.log| - 1]))
    ensures var row := e.server.row;
            match row.kek
            case None =>
              row.recovery.None?
              && (e.log != [] ==> e.log[0].key.Derived? && e.log[|e.log| - 1].key == e.log[0].key)
            case Some(kek) =>
              && e.log != [] && kek.under.Derived?
              && Unwrap(kek.under, kek, KekTag).Some?
              && Open(Vek(Unwrap(kek.under, kek, KekTag).value), e.log[|e.log| - 1]).Some?
              && (row.recovery.Some? ==>
                    Unwrap(row.recovery.value.under, row.recovery.value, RecoveryTag) == Unwrap(kek.under, kek, KekTag))
  {
    ReachedIsSafe(s, steps, e);
    NextVersion(e.server, e.log);
    if e.log != [] { assert Precedes(e.log[0], e.log[|e.log| - 1]); }
  }

  /** Run one tab's unlock through, with nothing in between. */
  function UnlockNow(s: System, d: nat, goal: Goal, mint: Minted): (e: System)
    ensures e.tabs.Keys == s.tabs.Keys
  {
    Do(Do(Do(Do(s, OnTab(d, StartUnlock(goal))), OnTab(d, ServeFlowRow)), OnTab(d, ServeFlowNewest)),
       OnTab(d, TakeUnlock(mint)))
  }

  /** The password or Secret Key of the stored wrap; on a legacy account the password the
      first snapshot was sealed under. */
  predicate RightSecret(row: Row, log: seq<Blob>, goal: Goal) {
    match goal
    case MasterPassword(master) =>
      if row.kek.Some? then row.kek.value.under == Derived(master) else log != [] && log[0].key == Derived(master)
    case SecretKey(secret) => row.recovery.Some? && row.recovery.value.under == Recovery(secret)
  }

  /** A step that no request of the tab waits for changes only that tab. */
  lemma {:induction false} StepOfTab(s: System, d: nat, a: Action, t': Tab)
    requires d in s.tabs && !a.ServeUpload? && !a.ServeFlowPut? && !a.ServeKeys?
    requires t' == ReadFor(s.server, Local(s.tabs[d], d, a), a)
    ensures Do(s, OnTab(d, a)) == s.(tabs := s.tabs[d := t'])
  {
    hide Local, ReadFor, Put, PutKeys;
  }

  lemma {:induction false} UnlockNowIs(s: System, d: nat, goal: Goal, mint: Minted)
    requires d in s.tabs && s.tabs[d].flow.NoFlow?
    ensures var meta := Meta(s.server.row, Newest(s.server.snapshots));
            UnlockNow(s, d, goal, mint) ==
            s.(tabs := s.tabs[d := UnlockFinished(s.tabs[d].(flow := Got(goal, meta)), mint)])
  {
    hide UnlockFinished, Newest, Do;
    var t := s.tabs[d];
    var meta := Meta(s.server.row, Newest(s.server.snapshots));
    StepAgain(s, d, StartUnlock(goal), t, t.(flow := Getting(goal)));
    StepAgain(s, d, ServeFlowRow, t.(flow := Getting(goal)), t.(flow := GettingNewest(goal, s.server.row)));
    StepAgain(s, d, ServeFlowNewest, t.(flow := GettingNewest(goal, s.server.row)), t.(flow := Got(goal, meta)));
    StepAgain(s, d, TakeUnlock(mint), t.(flow := Got(goal, meta)), UnlockFinished(t.(flow := Got(goal, meta)), mint));
    assert s.(tabs := s.tabs[d := t]) == s;
  }

  /** A step of a tab that already differs from what `s` has for it. */
  lemma {:induction false} StepAgain(s: System, d: nat, a: Action, before: Tab, after: Tab)
    requires d in s.tabs && !a.ServeUpload? && !a.ServeFlowPut? && !a.ServeKeys?
    requires after == ReadFor(s.server, Local(before, d, a), a)
    ensures Do(s.(tabs := s.tabs[d := before]), OnTab(d, a)) == s.(tabs := s.tabs[d := after])
  {
    hide Do, ReadFor, Local;
    var s1 := s.(tabs := s.tabs[d := before]);
    StepOfTab(s1, d, a, after);
    assert s1.tabs[d := after] == s.tabs[d := after];
  }

  /** What an answered GET makes of a locked tab. */
  ghost predicate FinishesRight(row: Row, log: seq<Blob>, st: Store, goal: Goal) {
    && (!st.isLocked <==> RightSecret(row, log, goal))
    && (!st.isLocked ==>
          log != [] && st.doc == log[|log| - 1].doc && st.serverVersion == |log| && st.key == Some(log[|log| - 1].key))
  }

  lemma {:induction false} FinishOpens(row: Row, log: seq<Blob>, t: Tab, goal: Goal, mint: Minted)
    requires t.store.isLocked && log != [] && row.version == |log|
    requires row.kek.Some? && row.kek.value.tag == KekTag && row.kek.value.under.Derived?
    requires row.recovery.Some? ==>
               row.recovery.value.tag == RecoveryTag && row.recovery.value.under.Recovery?
               && row.recovery.value.raw == row.kek.value.raw
    requires log[|log| - 1].key == Vek(row.kek.value.raw)
    ensures var meta := Meta(row, Some(Snapshot(|log|, log[|log| - 1])));
            FinishesRight(row, log, UnlockFinished(t.(flow := Got(goal, meta)), mint).store, goal)
  {
  }

  lemma {:induction false} FinishOpensLegacy(row: Row, log: seq<Blob>, t: Tab, goal: Goal, mint: Minted)
    requires t.store.isLocked && row.kek.None? && row.recovery.None?
    requires log != [] ==> row.version == |log| && log[0].key.Derived? && log[|log| - 1].key == log[0].key
    ensures var newest := if log == [] then None else Some(Snapshot(|log|, log[|log| - 1]));
            FinishesRight(row, log, UnlockFinished(t.(flow := Got(goal, Meta(row, newest))), mint).store, goal)
  {
  }

  /** An uninterrupted unlock of a locked tab succeeds exactly with the password or Secret
      Key the stored wraps were made for, or, on a legacy account, with the password it has
      always had, and then shows the newest accepted contents at the newest version. */
  lemma {:induction false} UnlockOpensNewest(s: System, steps: seq<Step>, e: System, d: nat, goal: Goal, mint: Minted)
    requires Reaches(s, steps, e) && d in e.tabs && e.tabs[d].flow.NoFlow? && e.tabs[d].store.isLocked
    ensures FinishesRight(e.server.row, e.log, UnlockNow(e, d, goal, mint).tabs[d].store, goal)
  {
    hide Run, CarefulRun, Initial, UnlockNow, UnlockFinished, FinishesRight, TabOk;
    ReachedIsSafe(s, steps, e);
    UnlockNowIs(e, d, goal, mint);
    if e.server.row.kek.Some? {
      NewestIs(e);
      FinishOpens(e.server.row, e.log, e.tabs[d], goal, mint);
    } else {
      NextVersion(e.server, e.log);
      StoredWrapsOpenNewest(s, steps, e);
      FinishOpensLegacy(e.server.row, e.log, e.tabs[d], goal, mint);
    }
    hide Safe, Newest;
  }

  /** A vault without any snapshot cannot tell a wrong password: unlocking activates it with
      an empty first snapshot under the password given. */
  lemma {:induction false} EmptyVaultIsActivated(s: System, steps: seq<Step>, e: System, d: nat, master: string,
                                                 mint: Minted)
    requires Reaches(s, steps, e) && d in e.tabs && e.tabs[d].flow.NoFlow? && e.log == []
    ensures var asked := UnlockNow(e, d, MasterPassword(master), mint);
            var end := Do(Do(asked, OnTab(d, ServeFlowPut)), OnTab(d, TakeFlowAnswer));
            && end.log == [Blob(Vek(mint), FRESH_DOC)]
            && end.server.row == Row(1, Some(Wrap(Derived(master), KekTag, mint)), None)
            && !end.tabs[d].store.isLocked && end.tabs[d].store.doc == FRESH_DOC
            && end.tabs[d].store.serverVersion == 1 && end.tabs[d].store.key == Some(Vek(mint))
  {
    hide Run, CarefulRun, Initial, UnlockNow;
    ReachedIsSafe(s, steps, e);
    NextVersion(e.server, e.log);
    UnlockNowIs(e, d, MasterPassword(master), mint);
    EmptyRow(e);
    Activates(e, d, e.tabs[d], master, mint);
    hide Safe, Newest;
  }

  lemma EmptyRow(e: System)
    requires Safe(e) && e.log == []
    ensures e.server == Server(Row(1, None, None), [])
  {
  }

  lemma {:induction false} Activates(e: System, d: nat, t: Tab, master: string, mint: Minted)
    requires d in e.tabs && e.log == [] && e.server == Server(Row(1, None, None), [])
    ensures var asked := e.(tabs := e.tabs[d := UnlockFinished(t.(flow := Got(MasterPassword(master),
        Meta(e.server.row, None))), mint)]);
            var end := Do(Do(asked, OnTab(d, ServeFlowPut)), OnTab(d, TakeFlowAnswer));
            && end.log == [Blob(Vek(mint), FRESH_DOC)]
            && end.server.row == Row(1, Some(Wrap(Derived(master), KekTag, mint)), None)
            && !end.tabs[d].store.isLocked && end.tabs[d].store.doc == FRESH_DOC
            && end.tabs[d].store.serverVersion == 1 && end.tabs[d].store.key == Some(Vek(mint))
  {
  }

  lemma {:induction false} NewestIs(s: System)
    requires Safe(s) && s.server.row.kek.Some?
    ensures s.log != [] && s.server.row.version == |s.log|
    ensures Newest(s.server.snapshots) == Some(Snapshot(|s.log|, s.log[|s.log| - 1]))
    ensures s.log[|s.log| - 1].key == Vek(s.server.row.kek.value.raw)
  {
    NextVersion(s.server, s.log);
  }

  // ---- One upgrade -------------------------------------------------------------------

  predicate AcceptsInit(s: System, step: Step) {
    && step.OnTab? && step.tab in s.tabs && step.action.ServeFlowPut?
    && Act(s.server, s.tabs[step.tab], step.tab, step.action).accepted.Some?
  }

  function Inits(s: System, steps: seq<Step>): nat
    decreases |steps|
  {
    if steps == [] then 0
    else (if AcceptsInit(s, steps[0]) then 1 else 0) + Inits(Do(s, steps[0]), steps[1..])
  }

  lemma {:induction false} InitNeedsNone(s: System, step: Step)
    requires Safe(s) && AcceptsInit(s, step)
    ensures s.server.row.kek.None? && Do(s, step).server.row.kek.Some?
  {
    var t := s.tabs[step.tab];
    assert TabOk(VekOf(s.server.row), s.log, t);
    var f := t.flow;
    PutIsCompareAndSet(s.server, s.log, Request(f.version, f.blob, Some(f.kek), f.recovery));
    InitExtends(s.server, s.log, f.blob, f.kek, f.recovery);
  }

  lemma {:induction false} KekStays(s: System, step: Step)
    requires Safe(s) && CarefulStep(s, step) && s.server.row.kek.Some?
    ensures Do(s, step).server.row.kek.Some? && VekOf(Do(s, step).server.row) == VekOf(s.server.row)
  {
    if step.OnTab? && step.tab in s.tabs {
      ActKeeps(s.server, s.log, s.tabs[step.tab], step.tab, step.action);
      hide Act, ServerOk, TabOk;
    }
  }

  /** Registration, healing and upgrade together are accepted at most once in the
      life of a vault, and never once it has a kek_wrap. */
  lemma {:induction false} KeyHierarchyStartsOnce(s: System, steps: seq<Step>)
    requires Safe(s) && CarefulRun(s, steps)
    ensures Inits(s, steps) <= (if s.server.row.kek.Some? then 0 else 1)
    decreases |steps|
  {
    if steps == [] {
    } else {
      StepKeepsSafe(s, steps[0]);
      KeyHierarchyStartsOnce(Do(s, steps[0]), steps[1..]);
      if AcceptsInit(s, steps[0]) { InitNeedsNone(s, steps[0]); }
      if s.server.row.kek.Some? { KekStays(s, steps[0]); }
      hide Do, Safe;
    }
  }

  /** A flow of a tab, at hand or parked. */
  ghost predicate IsFlowOf(t: Tab, f: Flow) {
    f == t.flow || exists i :: 0 <= i < |t.parked| && t.parked[i] == f
  }

  /** Whatever a tab sends to re-wrap holds the key the stored kek_wrap holds. */
  ghost predicate WrapsStoredKey(row: Row, f: Flow) {
    f.Rewrapping? ==>
      && (f.newKek.Some? ==> VekOf(row) == Some(f.newKek.value.raw) && f.newKek.value.under.Derived?)
      && (f.newRecovery.Some? ==> VekOf(row) == Some(f.newRecovery.value.raw) && f.newRecovery.value.under.Recovery?)
  }

  /** Every re-wrap under way in any tab, whatever key the tab works under, wraps the stored
      key; so serving it changes a password or a Secret Key and never the key. */
  lemma {:induction false} RewrapsHoldStoredKey(s: System, steps: seq<Step>, e: System, d: nat, f: Flow)
    requires Reaches(s, steps, e) && d in e.tabs && IsFlowOf(e.tabs[d], f)
    ensures WrapsStoredKey(e.server.row, f)
  {
    ReachedIsSafe(s, steps, e);
    var t := e.tabs[d];
    assert FlowOk(VekOf(e.server.row), e.log, t.store, f);
  }

  /** Once the vault has a kek_wrap, a tab that still works under the old derived key is
      shut out: its uploads conflict, no initialising PUT of its flows is accepted, the
      newest snapshot does not open for it, and it cannot begin a kit, as its key is not
      exported. It may still change the password: RewrapNeedsPassword. */
  lemma {:induction false} LegacyTabIsShutOut(s: System, steps: seq<Step>, e: System, d: nat, secret: string)
    requires Reaches(s, steps, e) && d in e.tabs && e.server.row.kek.Some?
    requires HoldsDerived(e.tabs[d].store)
    ensures var t := e.tabs[d];
            && (t.upload.Sent? ==> Act(e.server, t, d, ServeUpload).tab.upload.reply == Conflict
                                   && Act(e.server, t, d, ServeUpload).accepted.None?)
            && (t.flow.Putting? ==> Act(e.server, t, d, ServeFlowPut).accepted.None?)
            && (forall f :: IsFlowOf(t, f) && f.Putting? ==> f.version <= |e.log|)
            && t.store.serverVersion < |e.log|
            && Newest(e.server.snapshots).Some?
            && Open(t.store.key.value, Newest(e.server.snapshots).value.blob).None?
            && BeginKit(t, secret) == t
  {
    ReachedIsSafe(s, steps, e);
    NextVersion(e.server, e.log);
    var t := e.tabs[d];
    assert TabOk(VekOf(e.server.row), e.log, t);
    UploadConflicts(e.server, e.log, t, d);
    forall f | IsFlowOf(t, f) && f.Putting?
      ensures f.version <= |e.log|
    {
      PuttingLags(VekOf(e.server.row), e.log, t.store, f);
    }
    assert IsFlowOf(t, t.flow);
    InitConflicts(e.server, e.log, t, d);
    hide MetaOk, Stores, Newest, Expected, Act, ParkedOk;
  }

  lemma {:induction false} PuttingLags(vek: Option<nat>, log: seq<Blob>, st: Store, f: Flow)
    requires FlowOk(vek, log, st, f) && f.Putting? && log != [] && !log[|log| - 1].key.Derived?
    ensures f.version <= |log|
  {
  }

  /** A tab may change the password exactly when its cached metadata, stale or not, has a
      kek_wrap that the current password opens, whatever key the tab itself works under;
      the request is then accepted and puts the same key under the new password. */
  lemma {:induction false} RewrapNeedsPassword(s: System, steps: seq<Step>, e: System, d: nat, current: string,
                                               next: string)
    requires Reaches(s, steps, e) && d in e.tabs && e.tabs[d].flow.NoFlow?
    ensures var t := e.tabs[d];
            var asked := BeginRewrap(t, current, next);
            && asked.store == t.store
            && (asked.flow.Rewrapping? <==>
                  && t.meta.Some? && t.meta.value.row.kek.Some?
                  && t.meta.value.row.kek.value.under == Derived(current))
            && (asked.flow.Rewrapping? ==>
                  e.server.row.kek.Some? &&
                  Act(e.server, asked, d, ServeKeys).server ==
                  e.server.(row := e.server.row.(kek := Some(Wrap(Derived(next), KekTag, e.server.row.kek.value.raw)))))
  {
    hide Run, Initial, CarefulRun, Safe, BeginRewrap, Act, TabOk, CachedOk;
    ReachedIsSafe(s, steps, e);
    CachedHere(e, d);
    RewrapIs(VekOf(e.server.row), e.log, e.server, e.tabs[d], d, current, next);
  }

  lemma {:induction false} CachedHere(e: System, d: nat)
    requires Safe(e) && d in e.tabs
    ensures var t := e.tabs[d]; CachedOk(VekOf(e.server.row), e.log, t.store, t.meta, t.metaEra)
  {
    hide CachedOk;
  }

  lemma {:induction false} RewrapIs(vek: Option<nat>, log: seq<Blob>, s: Server, t: Tab, d: nat, current: string,
                                    next: string)
    requires CachedOk(vek, log, t.store, t.meta, t.metaEra) && vek == VekOf(s.row) && t.flow.NoFlow?
    ensures var asked := BeginRewrap(t, current, next);
            && asked.store == t.store
            && (asked.flow.Rewrapping? <==>
                  && t.meta.Some? && t.meta.value.row.kek.Some?
                  && t.meta.value.row.kek.value.under == Derived(current))
            && (asked.flow.Rewrapping? ==>
                  s.row.kek.Some? &&
                  Act(s, asked, d, ServeKeys).server ==
                  s.(row := s.row.(kek := Some(Wrap(Derived(next), KekTag, s.row.kek.value.raw)))))
  {
  }

  lemma {:induction false} UploadConflicts(server: Server, log: seq<Blob>, t: Tab, d: nat)
    requires Stores(server, log)
    ensures t.upload.Sent? && t.upload.version != |log| + 1 ==>
              Act(server, t, d, ServeUpload).accepted.None? && Act(server, t, d, ServeUpload).tab.upload.Answered?
              && Act(server, t, d, ServeUpload).tab.upload.reply == Conflict
  {
    if t.upload.Sent? {
      PutIsCompareAndSet(server, log, Request(t.upload.version, t.upload.blob, None, None));
    }
    hide Stores, Expected, Put;
  }

  lemma {:induction false} InitConflicts(server: Server, log: seq<Blob>, t: Tab, d: nat)
    requires Stores(server, log)
    ensures t.flow.Putting? && t.flow.version != |log| + 1 ==> Act(server, t, d, ServeFlowPut).accepted.None?
  {
    if t.flow.Putting? {
      PutIsCompareAndSet(server, log, Request(t.flow.version, t.flow.blob, Some(t.flow.kek), t.flow.recovery));
    }
    hide Stores, Expected, Put;
  }

  // ---- Versions, whether or not the tabs are careful ---------------------------------

  /** Stored versions are consecutive and end at the newest ever accepted, which
      `vaults.version` names; an accepted version is new. No care is needed. */
  lemma {:induction false} VersionsNeverReused(s: System, step: Step)
    requires Stores(s.server, s.log) && (s.pruning.Some? ==> s.pruning.value < |s.log| || s.pruning.value <= 0)
    ensures var s' := Do(s, step);
            && Stores(s'.server, s'.log) && (s'.pruning.Some? ==> s'.pruning.value < |s'.log| || s'.pruning.value <= 0)
            && s.log <= s'.log && |s'.log| <= |s.log| + 1
            && (|s'.log| > |s.log| ==> s'.server.row.version == |s'.log| && Newest(s'.server.snapshots).Some?
                                       && Newest(s'.server.snapshots).value.version == |s'.log|)
  {
    var s' := Do(s, step);
    match step {
      case PruneScan(keep) => NextVersion(s.server, s.log);
      case PruneDelete =>
        if s.pruning.Some? { StalePruneKeepsNewest(s.server, s.log, s.pruning.value); }
      case OnTab(d, a) =>
        if d in s.tabs {
          ActKeepsStores(s.server, s.log, s.tabs[d], d, a);
          if |s'.log| > |s.log| { NextVersion(s'.server, s'.log); }
        }
        hide Act, Stores;
    }
  }

  lemma {:induction false} ActKeepsStores(s: Server, log: seq<Blob>, t: Tab, d: nat, a: Action)
    requires Stores(s, log)
    ensures var o := Act(s, t, d, a);
            Stores(o.server, if o.accepted.None? then log else log + [o.accepted.value])
  {
    hide Local, ReadFor, Put, PutKeys, Stores, Decodes, OnWire;
    if t.upload.Sent? {
      PutIsCompareAndSet(s, log, Request(t.upload.version, t.upload.blob, None, None));
    }
    if t.flow.Putting? {
      PutIsCompareAndSet(s, log, Request(t.flow.version, t.flow.blob, Some(t.flow.kek), t.flow.recovery));
    }
    if t.flow.Rewrapping? { KeysKeepStores(s, log, OnWire(t.flow.newKek), OnWire(t.flow.newRecovery)); }
  }

  lemma {:induction false} KeysKeepStores(s: Server, log: seq<Blob>, kek: Option<WrapFields>,
                                          recovery: Option<WrapFields>)
    requires Stores(s, log)
    ensures Stores(PutKeys(s, kek, recovery).0, log)
  {
  }
}
