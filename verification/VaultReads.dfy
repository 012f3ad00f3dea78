/** GET is two reads, and what it returns may be torn. In every run, careful or not, a torn
    answer only lags. */
module VaultReads {
  import opened Basics
  import opened VaultTerms
  import opened VaultServer
  import opened VaultTab
  import opened VaultProtocol
  import opened VaultSafety
  import opened VaultTheorems

  ghost predicate RowSeen(log: seq<Blob>, row: Row) {
    1 <= row.version && (row.version <= |log| || row.version == 1)
  }

  /** The version reported is no newer than the snapshot that came with it, and that
      snapshot is the accepted one of its version. */
  ghost predicate AnswerLags(log: seq<Blob>, meta: Meta) {
    && RowSeen(log, meta.row)
    && (meta.newest.Some? ==> SnapshotOk(log, meta.newest.value) && meta.row.version <= meta.newest.value.version)
  }

  ghost predicate FlowSeen(log: seq<Blob>, f: Flow) {
    && (f.GettingNewest? ==> RowSeen(log, f.row))
    && (f.Got? ==> AnswerLags(log, f.meta))
  }

  ghost predicate UploadSeen(log: seq<Blob>, u: Upload) {
    && (u.ReloadingNewest? ==> RowSeen(log, u.row))
    && (u.Reloaded? ==> AnswerLags(log, u.meta))
  }

  /** Whatever of a GET a tab holds: a conflict reload, its key flows, the cached metadata. */
  ghost predicate TabSeen(log: seq<Blob>, t: Tab) {
    && UploadSeen(log, t.upload)
    && FlowSeen(log, t.flow)
    && (forall i :: 0 <= i < |t.parked| ==> FlowSeen(log, t.parked[i]))
    && (t.fetch.FetchingNewest? ==> RowSeen(log, t.fetch.row))
    && (t.meta.Some? ==> AnswerLags(log, t.meta.value))
  }

  ghost predicate Seen(s: System) {
    && Stores(s.server, s.log)
    && (s.pruning.Some? ==> s.pruning.value < |s.log| || s.pruning.value <= 0)
    && forall d :: d in s.tabs ==> TabSeen(s.log, s.tabs[d])
  }

  /** t' holds no more of any GET than t. */
  ghost predicate HoldsNoMore(t: Tab, t': Tab) {
    && (t'.upload == t.upload || !(t'.upload.ReloadingNewest? || t'.upload.Reloaded?))
    && (t'.flow == t.flow || !(t'.flow.GettingNewest? || t'.flow.Got?))
    && t'.parked == t.parked && t'.meta == t.meta
    && (t'.fetch == t.fetch || !t'.fetch.FetchingNewest?)
  }

  lemma {:induction false} StoreSlices(t: Tab, d: nat, a: Action)
    requires a.EditContents? || a.LockVault? || a.RetrySync? || a.FireTimer? || a.DropUpload? || a.AskMeta?
             || a.DropMeta?
    ensures HoldsNoMore(t, Local(t, d, a))
  {
    hide Doc.Text;
  }

  lemma {:induction false} SyncSlices(t: Tab, d: nat, a: Action)
    requires a.TakeUploadAnswer? || a.TakeReload? || a.TakeDecryption?
    ensures HoldsNoMore(t, Local(t, d, a))
  {
    hide Doc.Text;
  }

  lemma {:induction false} FlowSlices(t: Tab, d: nat, a: Action)
    requires a.StartUnlock? || a.StartRegister? || a.StartUpgrade? || a.StartRewrap? || a.StartNewMaster?
             || a.StartKit? || a.SendUpgrade? || a.TakeKeysAnswer? || a.DropFlow?
    ensures HoldsNoMore(t, Local(t, d, a))
  {
    hide Doc.Text;
  }

  lemma {:induction false} UnlockedHolds(t: Tab, doc: Doc, key: Key, version: int)
    ensures HoldsNoMore(t, Unlocked(t, doc, key, version))
  {
    EffectsTouchOnlyRefs(t.(store := Store(false, doc, Some(key), version, Idle, t.store.era + 1)));
    hide RunEffects;
  }

  lemma {:induction false} AnswerSlices(t: Tab, d: nat, a: Action)
    requires a.TakeUnlock? || a.TakeFlowAnswer?
    ensures HoldsNoMore(t, Local(t, d, a))
  {
    hide Unlocked, RunEffects, Rekeyed;
    var done := t.(flow := NoFlow);
    forall doc, key, version {
      UnlockedHolds(done, doc, key, version);
    }
    if t.flow.Replied? && t.flow.reply.Accepted? {
      EffectsTouchOnlyRefs(done.(store := Rekeyed(t.store, t.flow.blob.key, t.flow.reply.version)));
    }
  }

  lemma {:induction false} LocalSeen(log: seq<Blob>, t: Tab, d: nat, a: Action)
    requires TabSeen(log, t)
    ensures TabSeen(log, Local(t, d, a))
  {
    hide AnswerLags, RowSeen, Edited, Locked, Retried, BeginUnlock, BeginRegister, BeginUpgrade, BeginRewrap,
        BeginNewMaster,
         BeginKit, UpgradeSent, TimerFired, UploadAnswered, ReloadArrived, ReloadDecrypted, UnlockFinished,
             FlowAnswered,
         KeysAnswered, UploadDropped, FlowDropped;
    if a.TurnTo? {
    } else if a.TakeUnlock? || a.TakeFlowAnswer? {
      AnswerSlices(t, d, a);
    } else if a.StartUnlock? || a.StartRegister? || a.StartUpgrade? || a.StartRewrap? || a.StartNewMaster?
              || a.StartKit? || a.SendUpgrade? || a.TakeKeysAnswer? || a.DropFlow? {
      FlowSlices(t, d, a);
    } else if a.TakeUploadAnswer? || a.TakeReload? || a.TakeDecryption? {
      SyncSlices(t, d, a);
    } else if a.EditContents? || a.LockVault? || a.RetrySync? || a.FireTimer? || a.DropUpload? || a.AskMeta?
              || a.DropMeta? {
      StoreSlices(t, d, a);
    }
  }

  lemma {:induction false} AnswerOfBoth(s: Server, log: seq<Blob>, row: Row)
    requires Stores(s, log) && RowSeen(log, row)
    ensures AnswerLags(log, Meta(row, Newest(s.snapshots)))
  {
    NextVersion(s, log);
  }

  lemma {:induction false} ReadSeen(s: Server, log: seq<Blob>, t: Tab, a: Action)
    requires Stores(s, log) && TabSeen(log, t)
    ensures TabSeen(log, ReadFor(s, t, a))
  {
    assert RowSeen(log, s.row);
    if t.upload.ReloadingNewest? { AnswerOfBoth(s, log, t.upload.row); }
    if t.flow.GettingNewest? { AnswerOfBoth(s, log, t.flow.row); }
    if t.fetch.FetchingNewest? { AnswerOfBoth(s, log, t.fetch.row); }
    hide AnswerLags, RowSeen, Newest, Stores;
  }

  lemma {:induction false} SeenOutlivesGrowth(log: seq<Blob>, log': seq<Blob>, t: Tab)
    requires TabSeen(log, t) && log <= log'
    ensures TabSeen(log', t)
  {
  }

  lemma {:induction false} ActSeen(s: Server, log: seq<Blob>, t: Tab, d: nat, a: Action)
    requires Stores(s, log) && TabSeen(log, t)
    ensures TabSeen(log, Act(s, t, d, a).tab)
  {
    LocalSeen(log, t, d, a);
    ReadSeen(s, log, Local(t, d, a), a);
    hide Local, ReadFor, Put, PutKeys, Stores, AnswerLags, RowSeen;
  }

  lemma {:induction false} StepSeen(s: System, step: Step)
    requires Seen(s)
    ensures Seen(Do(s, step))
  {
    hide TabSeen, Act, Stores;
    VersionsNeverReused(s, step);
    var s' := Do(s, step);
    if step.OnTab? && step.tab in s.tabs { ActSeen(s.server, s.log, s.tabs[step.tab], step.tab, step.action); }
    forall e | e in s'.tabs
      ensures TabSeen(s'.log, s'.tabs[e])
    {
      SeenOutlivesGrowth(s.log, s'.log, s'.tabs[e]);
    }
  }

  /** Any tabs that hold nothing of a GET yet. */
  lemma {:induction false} RunSeen(s: System, steps: seq<Step>)
    requires Seen(s)
    ensures Seen(Run(s, steps))
    decreases |steps|
  {
    hide Seen, Do;
    if steps == [] {
    } else {
      StepSeen(s, steps[0]);
      RunSeen(Do(s, steps[0]), steps[1..]);
    }
  }

  /** A torn GET only lags: in every run, whatever is held of a GET by a conflict reload, a
      key flow or the settings page names a version no newer than the accepted snapshot that
      came with it. So a tab that builds on it can only meet a conflict. */
  lemma {:induction false} TornReadOnlyLags(s: System, steps: seq<Step>, d: nat)
    requires Initial(s) && d in s.tabs
    ensures var e := Run(s, steps);
            var t := e.tabs[d];
            && (t.upload.Reloaded? ==> AnswerLags(e.log, t.upload.meta))
            && (forall f :: IsFlowOf(t, f) && f.Got? ==> AnswerLags(e.log, f.meta))
            && (t.meta.Some? ==> AnswerLags(e.log, t.meta.value))
  {
    hide Run, AnswerLags;
    RunSeen(s, steps);
    assert TabSeen(Run(s, steps).log, Run(s, steps).tabs[d]);
  }
}
