/** What the key flows bring about when one tab runs them through: which wrap opens what, and
    what a registration, an upgrade, a recovery and a new kit leave in the vault and the tab. */
module VaultKeyFlows {
  import opened Basics
  import opened VaultTerms
  import opened VaultServer
  import opened VaultTab
  import opened VaultProtocol
  import opened VaultSafety
  import opened VaultTheorems
  import opened VaultConflicts

  // ---- Wraps -----------------------------------------------------------------------------

  /** A password opens a vault with a kek_wrap exactly when that wrap was made under it and for
      that column: a recovery wrap stored in its place opens nothing. */
  lemma {:induction false} PasswordOpensItsWrap(row: Row, newest: Option<Snapshot>, master: string, key: Key)
    requires row.kek.Some?
    ensures ResolveWithMaster(Meta(row, newest), master) == Some(key) <==>
            key.Vek? && row.kek.value == Wrap(Derived(master), KekTag, key.raw)
  {
  }

  /** And a Secret Key exactly its recovery wrap. */
  lemma {:induction false} SecretOpensItsWrap(row: Row, newest: Option<Snapshot>, secret: string, raw: nat)
    ensures ResolveWithSecret(Meta(row, newest), secret) == Some(raw) <==>
            row.recovery == Some(Wrap(Recovery(secret), RecoveryTag, raw))
  {
  }

  // ---- A tab by itself ---------------------------------------------------------------------

  /** Locking forgets the contents and the key and leaves nothing to send. */
  lemma {:induction false} LockForgets(s: System, d: nat)
    requires d in s.tabs
    ensures var t, end := s.tabs[d], Do(s, OnTab(d, LockVault));
            var t' := end.tabs[d];
            && end == s.(tabs := s.tabs[d := t'])
            && t'.store == Store(true, FRESH_DOC, None, 0, Idle, t.store.era)
            && !t'.refs.hadKey && !t'.refs.timer && t'.upload == t.upload && t'.flow == t.flow
  {
    hide Do, Doc.Text;
    StepIs(s, d, LockVault, Locked(s.tabs[d]));
  }

  /** An edit is added to the contents, and the timer armed exactly when they are unsent. */
  lemma {:induction false} EditIsAdded(s: System, d: nat, after: Contents)
    requires d in s.tabs && (s.tabs[d].store.key.Some? ==> s.tabs[d].refs.hadKey)
    ensures var t, end := s.tabs[d], Do(s, OnTab(d, EditContents(after)));
            var t' := end.tabs[d];
            && end == s.(tabs := s.tabs[d := t'])
            && t'.store == t.store.(doc := Doc(t.store.doc.trail + [Edit(d, after)]))
            && t'.store.doc.Text() == after && t'.upload == t.upload && (t'.refs.timer <==> Unsent(t'))
  {
    hide Do;
    StepIs(s, d, EditContents(after), Edited(s.tabs[d], d, after));
  }

  lemma {:induction false} UnlockSeeds(t: Tab, doc: Doc, key: Key, version: int)
    requires !t.refs.hadKey
    ensures var t' := Unlocked(t, doc, key, version);
            && t'.store == Store(false, doc, Some(key), version, Idle, t.store.era + 1)
            && t'.refs == Refs(t.refs.inFlight, Some(doc.Text()), true, false)
  {
    hide Doc.Text;
  }

  lemma {:induction false} EnterSeeds(t: Tab, meta: Meta, key: Key)
    requires !t.refs.hadKey && t.store.isLocked
    ensures var t' := Enter(t, meta, key);
            !t'.store.isLocked ==> t'.store.sync == Idle && !t'.refs.timer
                                   && t'.refs.lastSent == Some(t'.store.doc.Text())
  {
    hide Unlocked, Doc.Text;
    var contents := LoadContents(meta, key);
    if contents.Some? { UnlockSeeds(t.(flow := NoFlow), contents.value.0, key, contents.value.1); }
  }

  /** An unlock of a locked tab leaves nothing to send, as what it shows is what was stored. */
  lemma {:induction false} UnlockHasNothingToSend(s: System, d: nat, goal: Goal, mint: Minted)
    requires d in s.tabs && s.tabs[d].flow.NoFlow? && s.tabs[d].store.isLocked && !s.tabs[d].refs.hadKey
    ensures var t' := UnlockNow(s, d, goal, mint).tabs[d];
            !t'.store.isLocked ==> t'.store.sync == Idle && !t'.refs.timer
                                   && t'.refs.lastSent == Some(t'.store.doc.Text())
  {
    hide UnlockNow, Enter, Newest, Doc.Text, ResolveWithMaster, ResolveWithSecret, LoadContents;
    UnlockNowIs(s, d, goal, mint);
    var meta := Meta(s.server.row, Newest(s.server.snapshots));
    var t := s.tabs[d].(flow := Got(goal, meta));
    forall key { EnterSeeds(t, meta, key); }
  }

  const ASKING := [AskMeta, ServeMetaRow, ServeMetaNewest]

  /** The settings page caches what the server has, with the era it asked in. */
  lemma {:induction false} MetadataIsCached(s: System, d: nat)
    requires d in s.tabs
    ensures var t := s.tabs[d];
            InARow(s, d, ASKING) == s.(tabs := s.tabs[d :=
              t.(meta := Some(Meta(s.server.row, Newest(s.server.snapshots))), metaEra := t.store.era,
                 fetch := NoFetch)])
  {
    hide InARow, Newest;
    var t := s.tabs[d];
    var asked := t.(fetch := Fetching(t.store.era));
    var half := t.(fetch := FetchingNewest(s.server.row, t.store.era));
    var done := t.(meta := Some(Meta(s.server.row, Newest(s.server.snapshots))), metaEra := t.store.era,
                   fetch := NoFetch);
    Nothing(s, d);
    Then(s, d, [], AskMeta, t, asked, ASKING[..1]);
    Then(s, d, ASKING[..1], ServeMetaRow, asked, half, ASKING[..2]);
    Then(s, d, ASKING[..2], ServeMetaNewest, half, done, ASKING);
  }

  /** A key flow whose request or answer is lost ends there, and the tab is as it was. */
  lemma {:induction false} LostFlowChangesNothing(s: System, d: nat)
    requires d in s.tabs
    ensures var t := s.tabs[d];
            var ended := s.(tabs := s.tabs[d := t.(flow := NoFlow)]);
            && (t.flow.Getting? || t.flow.GettingNewest? || t.flow.Got? ==> Do(s, OnTab(d, DropFlow)) == ended)
            && (t.flow.Putting? || t.flow.Replied? ==> InARow(s, d, [DropFlow, TakeFlowAnswer]) == ended)
            && (t.flow.Rewrapping? || t.flow.Rewrapped? ==> InARow(s, d, [DropFlow, TakeKeysAnswer]) == ended)
  {
    hide InARow, Do;
    var t := s.tabs[d];
    var lost := FlowDropped(t);
    StepIs(s, d, DropFlow, lost);
    Nothing(s, d);
    Then(s, d, [], DropFlow, t, lost, [DropFlow]);
    Then(s, d, [DropFlow], TakeFlowAnswer, lost, FlowAnswered(lost), [DropFlow, TakeFlowAnswer]);
    Then(s, d, [DropFlow], TakeKeysAnswer, lost, KeysAnswered(lost), [DropFlow, TakeKeysAnswer]);
  }

  // ---- Flows that write ---------------------------------------------------------------------

  /** The server serves the tab's request, and the tab takes the answer. */
  lemma {:induction false} ServedAndTaken(s: System, d: nat, actions: seq<Action>, before: Tab, serve: Action,
                                          take: Action, o: Outcome, after: Tab, all: seq<Action>)
    requires d in s.tabs && InARow(s, d, actions) == s.(tabs := s.tabs[d := before])
    requires serve.ServeUpload? || serve.ServeFlowPut? || serve.ServeKeys?
    requires o == Act(s.server, before, d, serve)
    requires !take.ServeUpload? && !take.ServeFlowPut? && !take.ServeKeys?
    requires after == ReadFor(o.server, Local(o.tab, d, take), take)
    requires all == actions + [serve, take]
    ensures InARow(s, d, all) == System(o.server, if o.accepted.None? then s.log else s.log + [o.accepted.value],
                                        s.tabs[d := after], s.pruning)
  {
    hide Act, ReadFor, Local;
    var most := all[..|all| - 1];
    assert most == actions + [serve] && most[..|actions|] == actions;
    var mid := s.(tabs := s.tabs[d := before]);
    var served := InARow(s, d, most);
    assert served == Do(mid, OnTab(d, serve));
    assert served == System(o.server, if o.accepted.None? then s.log else s.log + [o.accepted.value],
                            s.tabs[d := o.tab], s.pruning);
    hide InARow;
    assert InARow(s, d, all) == Do(served, OnTab(d, take)) by { LastOf(s, d, all, take, served); }
    StepOfTab(served, d, take, after);
    assert served.tabs[d := after] == s.tabs[d := after];
  }

  lemma LastOf(s: System, d: nat, all: seq<Action>, last: Action, before: System)
    requires all != [] && all[|all| - 1] == last && InARow(s, d, all[..|all| - 1]) == before
    ensures InARow(s, d, all) == Do(before, OnTab(d, last))
  {
  }

  // ---- Registration ---------------------------------------------------------------------------

  /** A registration starts a vault that nothing was stored in: an empty snapshot under a new
      key, wrapped for the password and for the Secret Key; the tab is then unlocked under
      that key. Where something was stored already it changes nothing. */
  lemma {:induction false} RegistrationStartsVault(s: System, d: nat, master: string, secret: string, mint: Minted)
    requires d in s.tabs && s.tabs[d].flow.NoFlow? && Stores(s.server, s.log)
    ensures var t := s.tabs[d];
            var end := InARow(s, d, [StartRegister(master, secret, mint), ServeFlowPut, TakeFlowAnswer]);
            var t' := end.tabs[d];
            && t'.flow == NoFlow && t'.upload == t.upload
            && (s.log == [] ==>
                  && end.log == [Blob(Vek(mint), FRESH_DOC)]
                  && end.server.row == Row(1, Some(Wrap(Derived(master), KekTag, mint)),
                                           Some(Wrap(Recovery(secret), RecoveryTag, mint)))
                  && t'.store == Store(false, FRESH_DOC, Some(Vek(mint)), 1, Idle, t.store.era + 1))
            && (s.log != [] ==> end.log == s.log && end.server == s.server && t'.store == t.store)
  {
    var t := s.tabs[d];
    var start := StartRegister(master, secret, mint);
    var kek, recovery := Wrap(Derived(master), KekTag, mint), Wrap(Recovery(secret), RecoveryTag, mint);
    var asked := t.(flow := Putting(Register, 1, Blob(Vek(mint), FRESH_DOC), kek, Some(recovery)));
    var o := Act(s.server, asked, d, ServeFlowPut);
    PutIsCompareAndSet(s.server, s.log, Request(1, asked.flow.blob, Some(kek), Some(recovery)));
    hide InARow, Do, Expected, Stores, Doc.Text;
    Nothing(s, d);
    Then(s, d, [], start, t, asked, [start]);
    ServedAndTaken(s, d, [start], asked, ServeFlowPut, TakeFlowAnswer, o, FlowAnswered(o.tab),
                   [start, ServeFlowPut, TakeFlowAnswer]);
  }

  // ---- Upgrade --------------------------------------------------------------------------------

  /** The cached metadata is that of a legacy vault whose newest snapshot this password opens. */
  predicate MayUpgrade(t: Tab, current: string) {
    && t.meta.Some? && t.meta.value.row.kek.None? && t.meta.value.newest.Some?
    && t.meta.value.newest.value.blob.key == Derived(current)
  }

  /** What an upgrade leaves of a vault and a tab. */
  ghost predicate Upgrades(t: Tab, server: Server, log: seq<Blob>, current: string, next: string, mint: Minted,
                           t': Tab, server': Server, log': seq<Blob>) {
    && t'.flow == NoFlow && t'.upload == t.upload
    && if MayUpgrade(t, current) && t.store.serverVersion == |log| then
         && log' == log + [Blob(Vek(mint), t.store.doc)]
         && server'.row == Row(|log| + 1, Some(Wrap(Derived(next), KekTag, mint)), server.row.recovery)
         && t'.store == t.store.(key := Some(Vek(mint)), serverVersion := |log| + 1, era := t.store.era + 1)
       else log' == log && server' == server && t'.store == t.store
  }

  lemma {:induction false} UpgradeIs(server: Server, log: seq<Blob>, t: Tab, d: nat, current: string, next: string,
                                     mint: Minted)
    requires t.flow.NoFlow? && Stores(server, log)
    ensures var o := Act(server, UpgradeSent(BeginUpgrade(t, current, next, mint)), d, ServeFlowPut);
            Upgrades(t, server, log, current, next, mint, FlowAnswered(o.tab), o.server,
                     if o.accepted.None? then log else log + [o.accepted.value])
  {
    var asked := UpgradeSent(BeginUpgrade(t, current, next, mint));
    if MayUpgrade(t, current) {
      PutIsCompareAndSet(server, log, Request(asked.flow.version, asked.flow.blob, Some(asked.flow.kek), None));
    }
    hide Expected, Stores, Doc.Text;
  }

  /** An upgrade run through by a tab that is up to date stores its contents under a new key
      and a wrap of that key for the new password, and the tab goes on under that key. One
      that lags, or may not upgrade, changes nothing. */
  lemma {:induction false} UpgradeReplacesKey(s: System, d: nat, current: string, next: string, mint: Minted)
    requires d in s.tabs && s.tabs[d].flow.NoFlow? && Stores(s.server, s.log)
    ensures var end := InARow(s, d, [StartUpgrade(current, next, mint), SendUpgrade, ServeFlowPut, TakeFlowAnswer]);
            Upgrades(s.tabs[d], s.server, s.log, current, next, mint, end.tabs[d], end.server, end.log)
  {
    hide InARow, Do, Stores, Act, BeginUpgrade, UpgradeSent, FlowAnswered, Upgrades;
    var t := s.tabs[d];
    var start := StartUpgrade(current, next, mint);
    var begun := BeginUpgrade(t, current, next, mint);
    var asked := UpgradeSent(begun);
    var o := Act(s.server, asked, d, ServeFlowPut);
    UpgradeIs(s.server, s.log, t, d, current, next, mint);
    Nothing(s, d);
    Then(s, d, [], start, t, begun, [start]);
    Then(s, d, [start], SendUpgrade, begun, asked, [start, SendUpgrade]);
    ServedAndTaken(s, d, [start, SendUpgrade], asked, ServeFlowPut, TakeFlowAnswer, o, FlowAnswered(o.tab),
                   [start, SendUpgrade, ServeFlowPut, TakeFlowAnswer]);
  }

  // ---- Re-wraps -------------------------------------------------------------------------------

  lemma {:induction false} NewMasterIs(server: Server, t: Tab, d: nat, next: string)
    requires t.flow.NoFlow?
    ensures var o := Act(server, BeginNewMaster(t, next), d, ServeKeys);
            && o.accepted.None? && KeysAnswered(o.tab) == t.(pendingRaw := None)
            && o.server == if t.pendingRaw.None? then server
                           else server.(row := server.row.(kek := Some(Wrap(Derived(next), KekTag,
                               t.pendingRaw.value))))
  {
  }

  /** A new password after a recovery puts the recovered key, read from where the page keeps
      it, under that password, and the page forgets the key. */
  lemma {:induction false} NewMasterWrapsRecovered(s: System, d: nat, next: string)
    requires d in s.tabs && s.tabs[d].flow.NoFlow?
    ensures var t := s.tabs[d];
            var end := InARow(s, d, [StartNewMaster(next), ServeKeys, TakeKeysAnswer]);
            && end.log == s.log && end.tabs == s.tabs[d := t.(pendingRaw := None)]
            && end.server == if t.pendingRaw.None? then s.server
                             else s.server.(row := s.server.row.(kek := Some(Wrap(Derived(next), KekTag,
                                 t.pendingRaw.value))))
  {
    hide InARow, Do, Act, BeginNewMaster, KeysAnswered;
    var t := s.tabs[d];
    var start := StartNewMaster(next);
    var asked := BeginNewMaster(t, next);
    var o := Act(s.server, asked, d, ServeKeys);
    NewMasterIs(s.server, t, d, next);
    Nothing(s, d);
    Then(s, d, [], start, t, asked, [start]);
    ServedAndTaken(s, d, [start], asked, ServeKeys, TakeKeysAnswer, o, KeysAnswered(o.tab),
                   [start, ServeKeys, TakeKeysAnswer]);
  }

  /** When that request is lost the page keeps a buffer it has overwritten. */
  lemma {:induction false} LostNewMasterKeepsZeros(s: System, d: nat, next: string)
    requires d in s.tabs && s.tabs[d].flow.NoFlow? && s.tabs[d].pendingRaw.Some?
    ensures InARow(s, d, [StartNewMaster(next), DropFlow, TakeKeysAnswer])
         == s.(tabs := s.tabs[d := s.tabs[d].(pendingRaw := Some(0))])
  {
    hide InARow;
    var t := s.tabs[d];
    var start := StartNewMaster(next);
    var asked := BeginNewMaster(t, next);
    Nothing(s, d);
    Then(s, d, [], start, t, asked, [start]);
    Then(s, d, [start], DropFlow, asked, FlowDropped(asked), [start, DropFlow]);
    Then(s, d, [start, DropFlow], TakeKeysAnswer, FlowDropped(asked), KeysAnswered(FlowDropped(asked)),
         [start, DropFlow, TakeKeysAnswer]);
  }

  /** What a kit leaves of the vault. */
  function KitStored(server: Server, t: Tab, secret: string): Server {
    if t.meta.Some? && t.meta.value.row.kek.Some? && t.store.key.Some? && t.store.key.value.Vek? then
      server.(row := server.row.(recovery := Some(Wrap(Recovery(secret), RecoveryTag, t.store.key.value.raw))))
    else server
  }

  lemma {:induction false} KitIs(server: Server, t: Tab, d: nat, secret: string)
    requires t.flow.NoFlow?
    ensures var o := Act(server, BeginKit(t, secret), d, ServeKeys);
            o.accepted.None? && KeysAnswered(o.tab) == t && o.server == KitStored(server, t, secret)
  {
  }

  /** A tab makes a kit exactly when its cached metadata, stale or not, has a kek_wrap and it
      works under a random key; the recovery wrap then holds that key for the new Secret Key,
      and nothing else changes. */
  lemma {:induction false} KitWrapsTabKey(s: System, d: nat, secret: string)
    requires d in s.tabs && s.tabs[d].flow.NoFlow?
    ensures var end := InARow(s, d, [StartKit(secret), ServeKeys, TakeKeysAnswer]);
            end.log == s.log && end.tabs == s.tabs && end.server == KitStored(s.server, s.tabs[d], secret)
  {
    hide InARow, Do, Act, BeginKit, KeysAnswered, KitStored;
    var t := s.tabs[d];
    var start := StartKit(secret);
    var asked := BeginKit(t, secret);
    var o := Act(s.server, asked, d, ServeKeys);
    KitIs(s.server, t, d, secret);
    Nothing(s, d);
    Then(s, d, [], start, t, asked, [start]);
    ServedAndTaken(s, d, [start], asked, ServeKeys, TakeKeysAnswer, o, KeysAnswered(o.tab),
                   [start, ServeKeys, TakeKeysAnswer]);
    assert s.tabs[d := t] == s.tabs;
  }

  /** An unlock with the right Secret Key keeps the raw key of the stored kek_wrap for the new
      password, which NewMasterWrapsRecovered then wraps; with any other it changes nothing. */
  lemma {:induction false} RecoveryKeepsRaw(s: System, steps: seq<Step>, e: System, d: nat, secret: string,
                                            mint: Minted)
    requires Reaches(s, steps, e) && d in e.tabs && e.tabs[d].flow.NoFlow? && e.tabs[d].store.isLocked
    ensures var end := UnlockNow(e, d, SecretKey(secret), mint);
            var t, t' := e.tabs[d], end.tabs[d];
            && end.server == e.server && end.log == e.log && t'.flow == NoFlow
            && (if RightSecret(e.server.row, e.log, SecretKey(secret)) then
                  e.server.row.kek.Some? && t'.pendingRaw == Some(e.server.row.kek.value.raw)
                else t' == t)
  {
    hide Run, CarefulRun, Initial, UnlockNow, TabOk;
    ReachedIsSafe(s, steps, e);
    UnlockNowIs(e, d, SecretKey(secret), mint);
    if e.server.row.kek.Some? {
      NewestIs(e);
    }
    hide Newest, Unlocked;
  }

  // ---- Answers, torn or not -----------------------------------------------------------------

  /** The tab opened the answer's snapshot with this key, at the version of the answer's row,
      or the flow ended and nothing else changed. */
  ghost predicate OpensAnswer(t: Tab, t': Tab, meta: Meta, resolved: Option<Key>)
    requires meta.newest.Some?
  {
    if resolved.Some? && meta.newest.value.blob.key == resolved.value then
      && t'.store == Store(false, meta.newest.value.blob.doc, resolved, meta.row.version, Idle, t.store.era + 1)
      && t'.flow == NoFlow && t'.upload == t.upload && t'.parked == t.parked && t'.meta == t.meta
    else t' == t.(flow := NoFlow)
  }

  lemma {:induction false} EnterOpens(t: Tab, meta: Meta, key: Key)
    requires meta.newest.Some?
    ensures OpensAnswer(t, Enter(t, meta, key), meta, Some(key))
  {
    hide Doc.Text;
  }

  /** Whatever GET answered, also with a row older than its snapshot, an unlock shows that
      snapshot exactly when the secret resolves to its key, and takes the version of the row. */
  lemma {:induction false} UnlockTakesAnswer(s: System, d: nat, goal: Goal, meta: Meta, mint: Minted)
    requires d in s.tabs && s.tabs[d].flow == Got(goal, meta) && meta.newest.Some?
    ensures var t, end := s.tabs[d], Do(s, OnTab(d, TakeUnlock(mint)));
            && end == s.(tabs := s.tabs[d := end.tabs[d]])
            && OpensAnswer(t, end.tabs[d], meta,
                           match goal
                           case MasterPassword(master) => ResolveWithMaster(meta, master)
                           case SecretKey(secret) =>
                             var raw := ResolveWithSecret(meta, secret);
                             if raw.None? then None else Some(Vek(raw.value)))
  {
    hide Do, Enter, ResolveWithMaster, ResolveWithSecret, Doc.Text;
    forall key { EnterOpens(s.tabs[d], meta, key); }
    StepIs(s, d, TakeUnlock(mint), UnlockFinished(s.tabs[d], mint));
  }

  /** So does a reload after a conflict. */
  lemma {:induction false} ReloadTakesAnswer(s: System, d: nat, key: Key)
    requires d in s.tabs && s.tabs[d].upload.Reloaded? && s.tabs[d].upload.meta.newest.Some?
    requires s.tabs[d].store.key == Some(key)
    ensures var t, end := s.tabs[d], InARow(s, d, [TakeReload, TakeDecryption]);
            var blob := t.upload.meta.newest.value.blob;
            && end == s.(tabs := s.tabs[d := end.tabs[d]])
            && if key == blob.key then Adopted(t, end.tabs[d], blob, t.upload.meta.row.version)
               else Stuck(t, end.tabs[d])
  {
    hide InARow, ReloadArrived, ReloadDecrypted, Adopted, Stuck;
    var t := s.tabs[d];
    var arrived := ReloadArrived(t);
    ReloadTakes(t, key);
    Nothing(s, d);
    Then(s, d, [], TakeReload, t, arrived, [TakeReload]);
    Then(s, d, [TakeReload], TakeDecryption, arrived, ReloadDecrypted(arrived), [TakeReload, TakeDecryption]);
  }

  lemma {:induction false} ReloadTakes(t: Tab, key: Key)
    requires t.upload.Reloaded? && t.upload.meta.newest.Some? && t.store.key == Some(key)
    ensures var t' := ReloadDecrypted(ReloadArrived(t));
            var blob := t.upload.meta.newest.value.blob;
            if key == blob.key then Adopted(t, t', blob, t.upload.meta.row.version) else Stuck(t, t')
  {
    hide Doc.Text;
  }

  // ---- Answers without a snapshot ------------------------------------------------------------

  /** An answer with a kek_wrap but no snapshot opens an empty vault at the version of the row;
      one with neither activates the vault instead. */
  lemma {:induction false} UnlockWithoutSnapshot(s: System, d: nat, master: string, row: Row, mint: Minted)
    requires d in s.tabs && s.tabs[d].flow == Got(MasterPassword(master), Meta(row, None))
    ensures var t, end := s.tabs[d], Do(s, OnTab(d, TakeUnlock(mint)));
            var t' := end.tabs[d];
            && end == s.(tabs := s.tabs[d := t'])
            && (row.kek.None? ==> t' == t.(flow := Putting(Heal, 1, Blob(Vek(mint), FRESH_DOC),
                                                           Wrap(Derived(master), KekTag, mint), None)))
            && (row.kek.Some? && row.kek.value.under == Derived(master) && row.kek.value.tag.KekTag? ==>
                  t'.store == Store(false, FRESH_DOC, Some(Vek(row.kek.value.raw)), row.version, Idle,
                                    t.store.era + 1)
                  && t'.flow == NoFlow)
  {
    hide Do, Doc.Text;
    StepIs(s, d, TakeUnlock(mint), UnlockFinished(s.tabs[d], mint));
  }

  /** A reload that finds no snapshot takes the tab's own contents for the newest, as saved at
      version 0. */
  lemma {:induction false} ReloadWithoutSnapshot(s: System, d: nat)
    requires d in s.tabs && s.tabs[d].upload.Reloaded? && s.tabs[d].upload.meta.newest.None?
    requires s.tabs[d].store.key.Some?
    ensures var t, end := s.tabs[d], Do(s, OnTab(d, TakeReload));
            var t' := end.tabs[d];
            && end == s.(tabs := s.tabs[d := t'])
            && t'.store == t.store.(serverVersion := 0, sync := Saved)
            && t'.upload == Quiet && !t'.refs.inFlight && t'.refs.lastSent == Some(t.store.doc.Text())
            && (t.store.serverVersion != 0 ==> !t'.refs.timer)
  {
    hide Do, Doc.Text;
    StepIs(s, d, TakeReload, ReloadArrived(s.tabs[d]));
  }
}
