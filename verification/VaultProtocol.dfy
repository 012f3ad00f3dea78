/** Any number of tabs of one account, the server, and a retention prune that reads
    its bound and deletes at two different moments, as interleaved steps. */
module VaultProtocol {
  import opened Basics
  import opened VaultTerms
  import opened VaultServer
  import opened VaultTab

  datatype Action =
    // the user
    | EditContents(after: Contents)
    | LockVault
    | RetrySync
    | StartUnlock(goal: Goal)
    | StartRegister(master: string, secret: string, mint: Minted)
    | StartUpgrade(current: string, next: string, mint: Minted)
    | StartRewrap(current: string, next: string)
    | StartNewMaster(next: string)
    | StartKit(secret: string)
    // the tab's own continuations
    | TurnTo(which: nat)
    | SendUpgrade
    | FireTimer
    | TakeUploadAnswer
    | TakeReload
    | TakeDecryption
    | TakeUnlock(mint: Minted)
    | TakeFlowAnswer
    | TakeKeysAnswer
    // the server working on a request of this tab
    | ServeUpload
    | ServeReloadRow
    | ServeReloadNewest
    | ServeFlowRow
    | ServeFlowNewest
    | ServeFlowPut
    | ServeKeys
    | AskMeta
    | ServeMetaRow
    | ServeMetaNewest
    // the network losing what is in transit
    | DropUpload
    | DropFlow
    | DropMeta

  datatype Step =
    | OnTab(tab: nat, action: Action)
    | PruneScan(keep: nat)
    | PruneDelete

  /** `log` holds every accepted snapshot, also the pruned ones. */
  datatype System = System(server: Server, log: seq<Blob>, tabs: map<nat, Tab>, pruning: Option<int>)

  datatype Outcome = Outcome(server: Server, tab: Tab, accepted: Option<Blob>)

  /** What an action does to its own tab when it involves no server state. */
  function Local(t: Tab, d: nat, a: Action): Tab {
    match a
    case EditContents(after) => Edited(t, d, after)
    case LockVault => Locked(t)
    case RetrySync => Retried(t)
    case StartUnlock(goal) => BeginUnlock(t, goal)
    case StartRegister(m, k, mint) => BeginRegister(t, m, k, mint)
    case StartUpgrade(c, n, mint) => BeginUpgrade(t, c, n, mint)
    case StartRewrap(c, n) => BeginRewrap(t, c, n)
    case StartNewMaster(n) => BeginNewMaster(t, n)
    case StartKit(k) => BeginKit(t, k)
    case TurnTo(i) => Turned(t, i)
    case SendUpgrade => UpgradeSent(t)
    case FireTimer => TimerFired(t)
    case TakeUploadAnswer => UploadAnswered(t)
    case TakeReload => ReloadArrived(t)
    case TakeDecryption => ReloadDecrypted(t)
    case TakeUnlock(mint) => UnlockFinished(t, mint)
    case TakeFlowAnswer => FlowAnswered(t)
    case TakeKeysAnswer => KeysAnswered(t)
    case AskMeta => t.(fetch := Fetching(t.store.era))
    case DropUpload => UploadDropped(t)
    case DropFlow => FlowDropped(t)
    case DropMeta => t.(fetch := NoFetch)
    case _ => t
  }

  function ReadFor(server: Server, t: Tab, a: Action): Tab {
    var newest := Newest(server.snapshots);
    match a
    case ServeReloadRow =>
      if t.upload.Reloading? then t.(upload := ReloadingNewest(t.upload.version, server.row)) else t
    case ServeReloadNewest =>
      if t.upload.ReloadingNewest? then t.(upload := Reloaded(t.upload.version, Meta(t.upload.row, newest))) else t
    case ServeFlowRow =>
      if t.flow.Getting? then t.(flow := GettingNewest(t.flow.goal, server.row)) else t
    case ServeFlowNewest =>
      if t.flow.GettingNewest? then t.(flow := Got(t.flow.goal, Meta(t.flow.row, newest))) else t
    case ServeMetaRow =>
      if t.fetch.Fetching? then t.(fetch := FetchingNewest(server.row, t.fetch.era)) else t
    case ServeMetaNewest =>
      if t.fetch.FetchingNewest? then
        t.(meta := Some(Meta(t.fetch.row, newest)), metaEra := t.fetch.era, fetch := NoFetch)
      else t
    case _ => t
  }

  function Act(server: Server, t: Tab, d: nat, a: Action): Outcome {
    match a
    case ServeUpload =>
      if !t.upload.Sent? then Outcome(server, t, None)
      else
        var (after, reply) := Put(server, Request(t.upload.version, t.upload.blob, None, None));
        Outcome(after, t.(upload := Answered(t.upload.version, t.upload.blob, reply)),
                if reply.Accepted? then Some(t.upload.blob) else None)
    case ServeFlowPut =>
      if !t.flow.Putting? then Outcome(server, t, None)
      else
        var f := t.flow;
        var (after, reply) := Put(server, Request(f.version, f.blob, Some(f.kek), f.recovery));
        Outcome(after, t.(flow := Replied(f.kind, f.version, f.blob, reply)),
                if reply.Accepted? then Some(f.blob) else None)
    case ServeKeys =>
      if !t.flow.Rewrapping? then Outcome(server, t, None)
      else
        var (after, ok) := PutKeys(server, OnWire(t.flow.newKek), OnWire(t.flow.newRecovery));
        Outcome(after, t.(flow := Rewrapped(ok, t.flow.ofPending)), None)
    case _ => Outcome(server, ReadFor(server, Local(t, d, a), a), None)
  }

  function Do(s: System, step: Step): (s': System)
    ensures s'.tabs.Keys == s.tabs.Keys
  {
    match step
    case PruneScan(keep) =>
      s.(pruning := if keep == 0 then None else Some(Cutoff(s.server.snapshots, keep)))
    case PruneDelete =>
      if s.pruning.None? then s
      else s.(server := s.server.(snapshots := Above(s.server.snapshots, s.pruning.value)), pruning := None)
    case OnTab(d, a) =>
      if d !in s.tabs then s
      else
        var o := Act(s.server, s.tabs[d], d, a);
        System(o.server, if o.accepted.None? then s.log else s.log + [o.accepted.value], s.tabs[d := o.tab], s.pruning)
  }

  function Run(s: System, steps: seq<Step>): (e: System)
    ensures e.tabs.Keys == s.tabs.Keys
    decreases |steps|
  {
    if steps == [] then s else Run(Do(s, steps[0]), steps[1..])
  }

  /** A new account, or a legacy one whose snapshots are sealed directly under a
      master-password key; every tab is locked. */
  ghost predicate Initial(s: System) {
    && Stores(s.server, s.log)
    && s.server.row.kek.None? && s.server.row.recovery.None?
    && (forall i, j :: 0 <= i <= j < |s.log| ==> s.log[i].doc.trail <= s.log[j].doc.trail)
    && (forall i :: 0 <= i < |s.log| ==> s.log[i].key.Derived? && s.log[i].key == s.log[0].key)
    && (forall d :: d in s.tabs ==> s.tabs[d] == NEW_TAB)
    && s.pruning.None?
  }

  // ---- What the code relies on without checking -----------------------------------

  /** The answered GET opens the vault for `goal`. */
  predicate Opens(goal: Goal, meta: Meta) {
    match goal
    case MasterPassword(master) =>
      var key := ResolveWithMaster(meta, master);
      key.Some? && !NeedsHealing(meta) && LoadContents(meta, key.value).Some?
    case SecretKey(secret) =>
      var raw := ResolveWithSecret(meta, secret);
      raw.Some? && LoadContents(meta, Vek(raw.value)).Some?
  }

  /** `a` unlocks the store, now. */
  predicate CompletesUnlock(t: Tab, a: Action) {
    match a
    case TakeUnlock(_) => t.flow.Got? && Opens(t.flow.goal, t.flow.meta)
    case TakeFlowAnswer => t.flow.Replied? && t.flow.reply.Accepted? && !t.flow.kind.Upgrade?
    case _ => false
  }

  /** The ways to lapse from care. */
  datatype Lapse =
    | NoLapse
    | UnlockDuringUpload
    | UnlockDuringUpgrade
    | UpgradeWhileLocked
    | UpgradeOutdated
    | WrapOverwritten
    | UnlockWhileUnlocked
    | UpgradeUnsynced
    | LockDuringUpgrade

  /** No unlock completes while an upload or reload, or an upgrade, of the same tab is
      under way; an upgrade is sent from an unlocked store, after metadata fetched since
      the last unlock or rekey; an overwritten raw key is not wrapped again. One of these
      may be excepted. */
  predicate CarefulBut(l: Lapse, t: Tab, a: Action) {
    && (l.UnlockDuringUpload? || (CompletesUnlock(t, a) ==> t.upload.Quiet?))
    && (l.UnlockDuringUpgrade? || (CompletesUnlock(t, a) ==> forall i :: 0 <= i < |t.parked| ==>
                                   !Upgrading(t.parked[i])))
    && (l.UpgradeWhileLocked? || (a.SendUpgrade? && t.flow.Preparing? ==> !t.store.isLocked))
    && (l.UpgradeOutdated? || (a.SendUpgrade? && t.flow.Preparing? ==> t.flow.era == t.store.era))
    && (l.WrapOverwritten? || (a.StartNewMaster? ==> t.pendingRaw != Some(ZEROED)))
  }

  predicate Careful(t: Tab, a: Action) {
    CarefulBut(NoLapse, t, a)
  }

  predicate CarefulStep(s: System, step: Step) {
    step.OnTab? && step.tab in s.tabs ==> Careful(s.tabs[step.tab], step.action)
  }

  predicate CarefulRun(s: System, steps: seq<Step>)
    decreases |steps|
  {
    steps == [] || (CarefulStep(s, steps[0]) && CarefulRun(Do(s, steps[0]), steps[1..]))
  }
}
