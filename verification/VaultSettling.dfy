/** The sync manager settles: a quiet tab shows accepted contents, and after its
    last edit a tab needs at most two uploads to become quiet. */
module VaultSettling {
  import opened Basics
  import opened VaultTerms
  import opened VaultServer
  import opened VaultTab
  import opened VaultProtocol
  import opened VaultSafety

  /** Beyond careful: a vault is unlocked only while it is locked, an upgrade is sent
      with nothing left to sync, and no lock happens while it is unanswered. */
  predicate TidyBut(l: Lapse, t: Tab, a: Action) {
    && CarefulBut(l, t, a)
    && (l.UnlockWhileUnlocked? || (CompletesUnlock(t, a) ==> t.store.isLocked))
    && (l.UpgradeUnsynced? || (a.SendUpgrade? && t.flow.Preparing? ==> t.refs.lastSent == Some(t.store.doc.Text())))
    && (l.LockDuringUpgrade? || (a.LockVault? ==> !Upgrading(t.flow) && NoneUpgrading(t.parked)))
  }

  predicate Tidy(t: Tab, a: Action) {
    TidyBut(NoLapse, t, a)
  }

  predicate TidyStep(s: System, step: Step) {
    step.OnTab? && step.tab in s.tabs ==> Tidy(s.tabs[step.tab], step.action)
  }

  predicate TidyRun(s: System, steps: seq<Step>)
    decreases |steps|
  {
    steps == [] || (TidyStep(s, steps[0]) && TidyRun(Do(s, steps[0]), steps[1..]))
  }

  /** `text` is the contents of an accepted snapshot of version `from` or later. */
  ghost predicate AcceptedSince(log: seq<Blob>, from: int, text: Contents) {
    exists i :: 0 <= i < |log| && from <= i + 1 && log[i].doc.Text() == text
  }

  ghost predicate KeyRefsOk(t: Tab) {
    && (t.store.isLocked <==> t.store.key.None?)
    && (t.refs.hadKey <==> t.store.key.Some?)
  }

  ghost predicate LastSentOk(log: seq<Blob>, t: Tab) {
    !t.store.isLocked ==>
      t.refs.lastSent.Some? && AcceptedSince(log, t.store.serverVersion, t.refs.lastSent.value)
  }

  predicate IsQuiet(t: Tab) {
    !t.refs.timer && !t.refs.inFlight && !t.store.sync.Failed?
  }

  ghost predicate TimerOk(t: Tab) {
    && (!t.store.isLocked && IsQuiet(t) ==> t.refs.lastSent == Some(t.store.doc.Text()))
    && (t.refs.timer ==> !t.store.isLocked && t.refs.lastSent != Some(t.store.doc.Text()))
  }

  /** An accepted upload is one version ahead of the store it came from; one that a
      finished upgrade overtook cannot be accepted. */
  ghost predicate AheadOk(log: seq<Blob>, t: Tab) {
    var u := t.upload;
    && (u.Sent? && !t.store.isLocked ==> t.store.serverVersion + 1 == u.version || u.version <= |log|)
    && (u.Answered? && u.reply.Accepted? && !t.store.isLocked ==> t.store.serverVersion + 1 == u.version)
  }

  ghost predicate UpgradeSynced(log: seq<Blob>, st: Store, lastSent: Option<Contents>, f: Flow) {
    && (Upgrading(f) ==> !st.isLocked)
    && (Upgrading(f) && f.Putting? ==> f.version <= |log| || lastSent == Some(f.blob.doc.Text()))
    && (Upgraded(f) ==> st.serverVersion + 1 == f.version && lastSent == Some(f.blob.doc.Text()))
  }

  ghost predicate ParkedSynced(log: seq<Blob>, st: Store, lastSent: Option<Contents>, parked: seq<Flow>) {
    forall i :: 0 <= i < |parked| ==> UpgradeSynced(log, st, lastSent, parked[i])
  }

  ghost predicate SettleOk(log: seq<Blob>, t: Tab) {
    && KeyRefsOk(t) && LastSentOk(log, t) && TimerOk(t) && AheadOk(log, t)
    && UpgradeSynced(log, t.store, t.refs.lastSent, t.flow) && ParkedSynced(log, t.store, t.refs.lastSent, t.parked)
  }

  ghost predicate Settling(s: System) {
    Safe(s) && forall d :: d in s.tabs ==> SettleOk(s.log, s.tabs[d])
  }

  // ---- Effects ------------------------------------------------------------------

  /** Line 46: an empty vault that has never synced has nothing to push. */
  predicate NeverSynced(st: Store) {
    !st.isLocked && st.key.Some? && st.serverVersion == 0 && st.doc.Text() == EMPTY
  }

  /** The effects seed `lastSent` exactly when a key appears, and arm the timer exactly when
      an unlocked vault differs from what was last sent and has something to push. */
  lemma {:induction false} EffectsSettle(t: Tab)
    requires t.store.isLocked <==> t.store.key.None?
    ensures var t' := RunEffects(t);
            && t' == t.(refs := t'.refs) && t'.refs.inFlight == t.refs.inFlight
            && KeyRefsOk(t') && TimerOk(t')
            && t'.refs.lastSent ==
               (if NeverSynced(t.store) || (t.store.key.Some? && !t.refs.hadKey) then Some(t.store.doc.Text())
                else t.refs.lastSent)
            && (t'.refs.timer <==> !t.store.isLocked && t'.refs.lastSent != Some(t.store.doc.Text()))
  {
  }

  // ---- Flows that no longer matter -------------------------------------------------

  /** No upgrade that can still be, or was, accepted. */
  predicate Indifferent(log: seq<Blob>, f: Flow) {
    !Upgraded(f) && (Upgrading(f) && f.Putting? ==> f.version <= |log|)
  }

  predicate AllIndifferent(log: seq<Blob>, parked: seq<Flow>) {
    forall i :: 0 <= i < |parked| ==> Indifferent(log, parked[i])
  }

  lemma {:induction false} IndifferentStay(log: seq<Blob>, st: Store, lastSent: Option<Contents>,
                                           st': Store, lastSent': Option<Contents>, parked: seq<Flow>)
    requires ParkedSynced(log, st, lastSent, parked) && (st'.isLocked ==> st.isLocked || NoneUpgrading(parked))
    requires AllIndifferent(log, parked) || (lastSent' == lastSent && st'.serverVersion == st.serverVersion)
    ensures ParkedSynced(log, st', lastSent', parked)
  {
    forall i | 0 <= i < |parked|
      ensures UpgradeSynced(log, st', lastSent', parked[i])
    {
      assert UpgradeSynced(log, st, lastSent, parked[i]);
    }
  }

  /** A locked tab has no upgrade under way. */
  lemma {:induction false} LockedAreIndifferent(log: seq<Blob>, t: Tab)
    requires SettleOk(log, t) && t.store.isLocked
    ensures !Upgrading(t.flow) && NoneUpgrading(t.parked) && AllIndifferent(log, t.parked)
  {
    hide KeyRefsOk, LastSentOk, TimerOk, AheadOk;
    forall i | 0 <= i < |t.parked|
      ensures !Upgrading(t.parked[i])
    {
      assert UpgradeSynced(log, t.store, t.refs.lastSent, t.parked[i]);
    }
  }

  lemma {:induction false} EditSettles(log: seq<Blob>, t: Tab, vek: Option<nat>, d: nat, after: Contents)
    requires TabOk(vek, log, t) && SettleOk(log, t)
    ensures SettleOk(log, Edited(t, d, after)) && SettleOk(log, Retried(t))
  {
    EffectsSettle(t.(store := t.store.(doc := t.store.doc.Changed(d, after))));
    EffectsSettle(t.(store := t.store.(sync := Idle)));
    IndifferentStay(log, t.store, t.refs.lastSent, t.store.(doc := t.store.doc.Changed(d, after)), t.refs.lastSent,
                    t.parked);
    IndifferentStay(log, t.store, t.refs.lastSent, t.store.(sync := Idle), t.refs.lastSent, t.parked);
    hide RunEffects, UploadOk, FlowOk, ParkedOk, MetaOk, FetchOk, AcceptedSince, ParkedSynced, CachedOk;
  }

  lemma {:induction false} LockSettles(log: seq<Blob>, t: Tab)
    requires SettleOk(log, t) && !Upgrading(t.flow) && NoneUpgrading(t.parked)
    ensures SettleOk(log, Locked(t))
  {
    var st := Store(true, FRESH_DOC, None, 0, Idle, t.store.era);
    EffectsSettle(t.(store := st));
    forall i | 0 <= i < |t.parked|
      ensures UpgradeSynced(log, st, t.refs.lastSent, t.parked[i])
    {
    }
    hide RunEffects, AcceptedSince;
  }

  lemma {:induction false} TimerSettles(log: seq<Blob>, t: Tab)
    requires SettleOk(log, t)
    ensures SettleOk(log, TimerFired(t))
  {
    hide AcceptedSince;
  }

  lemma {:induction false} AnswerSettles(log: seq<Blob>, t: Tab, vek: Option<nat>)
    requires TabOk(vek, log, t) && SettleOk(log, t)
    ensures SettleOk(log, UploadAnswered(t))
  {
    hide RunEffects, FlowOk, ParkedOk, MetaOk, FetchOk, AcceptedSince, ParkedSynced, CachedOk;
    if t.upload.Answered? && t.upload.reply.Accepted? {
      var v, text := t.upload.reply.version, t.upload.blob.doc.Text();
      var sent := Landed(t).(store := t.store.(sync := Saved, serverVersion := v),
                             refs := t.refs.(inFlight := false, lastSent := Some(text)));
      ThisIsAccepted(log, v, text);
      EffectsSettle(sent);
      AcceptedAnswerOutrunsUpgrade(log, t, vek, t.flow);
      AcceptedAnswerOutrunsAll(log, t, vek);
      IndifferentStay(log, t.store, t.refs.lastSent, sent.store, Some(text), t.parked);
      hide UploadOk, StoreOk;
    } else {
      var failed := t.store.(sync := SyncState.Failed);
      IndifferentStay(log, t.store, t.refs.lastSent, failed, t.refs.lastSent, t.parked);
      hide UploadOk, StoreOk;
    }
  }

  lemma ThisIsAccepted(log: seq<Blob>, v: int, text: Contents)
    requires 1 <= v <= |log| && log[v - 1].doc.Text() == text
    ensures AcceptedSince(log, v, text)
  {
    assert log[v - 1].doc.Text() == text;
  }

  /** Of an upload and an upgrade of one tab only one can take the next version. */
  lemma {:induction false} AcceptedAnswerOutrunsUpgrade(log: seq<Blob>, t: Tab, vek: Option<nat>, f: Flow)
    requires UploadOk(vek, log, t.store, t.upload) && FlowOk(vek, log, t.store, f) && AheadOk(log, t)
    requires UpgradeSynced(log, t.store, t.refs.lastSent, f) && t.upload.Answered? && t.upload.reply.Accepted?
    ensures Indifferent(log, f)
  {
    hide MetaOk, RowOk, WrapsOk;
  }

  lemma {:induction false} AcceptedAnswerOutrunsAll(log: seq<Blob>, t: Tab, vek: Option<nat>)
    requires TabOk(vek, log, t) && SettleOk(log, t) && t.upload.Answered? && t.upload.reply.Accepted?
    ensures AllIndifferent(log, t.parked)
  {
    hide FlowOk, UploadOk, FetchOk, CachedOk, StoreOk, AheadOk, UpgradeSynced, Indifferent, LastSentOk, TimerOk,
        KeyRefsOk;
    forall i | 0 <= i < |t.parked|
      ensures Indifferent(log, t.parked[i])
    {
      AcceptedAnswerOutrunsUpgrade(log, t, vek, t.parked[i]);
    }
  }

  lemma {:induction false} ReloadSettles(log: seq<Blob>, t: Tab, vek: Option<nat>)
    requires Chain(log) && TabOk(vek, log, t) && SettleOk(log, t)
    ensures SettleOk(log, ReloadDecrypted(t))
  {
    if t.upload.Decrypting? && Open(t.upload.with, t.upload.source.blob).Some? {
      var doc, target, source := t.upload.source.blob.doc, t.upload.target, t.upload.source;
      assert log[source.version - 1].doc.Text() == doc.Text();
      assert AcceptedSince(log, target, doc.Text());
      var end := Applied(t, doc, target);
      EffectsSettle(end);
      ReloadOutrunsAll(log, t, vek);
      IndifferentStay(log, t.store, t.refs.lastSent, end.store, end.refs.lastSent, t.parked);
      hide RunEffects, UploadOk, FlowOk, ParkedOk, MetaOk, FetchOk, AcceptedSince, StoreOk, ParkedSynced, CachedOk;
    } else {
      hide RunEffects, AcceptedSince, UploadOk, FlowOk, ParkedOk, MetaOk, FetchOk, StoreOk, ParkedSynced, CachedOk;
    }
  }

  lemma {:induction false} ReloadOutrunsAll(log: seq<Blob>, t: Tab, vek: Option<nat>)
    requires Chain(log) && TabOk(vek, log, t) && SettleOk(log, t)
    requires t.upload.Decrypting? && t.upload.with == t.upload.source.blob.key
    ensures Indifferent(log, t.flow) && AllIndifferent(log, t.parked)
  {
    hide FlowOk, UploadOk, FetchOk, CachedOk, StoreOk, AheadOk, UpgradeSynced, LastSentOk, TimerOk, KeyRefsOk, Chain;
    if t.store.isLocked {
      LockedAreIndifferent(log, t);
    } else {
      ReloadOutrunsUpgrade(vek, log, t, t.flow);
      forall i | 0 <= i < |t.parked|
        ensures Indifferent(log, t.parked[i])
      {
        ReloadOutrunsUpgrade(vek, log, t, t.parked[i]);
      }
    }
  }

  lemma {:induction false} ArrivalSettles(log: seq<Blob>, t: Tab, vek: Option<nat>)
    requires TabOk(vek, log, t) && SettleOk(log, t)
    ensures SettleOk(log, ReloadArrived(t))
  {
    hide RunEffects, AcceptedSince, FlowOk, ParkedOk, FetchOk, StoreOk, SentOk, RowOk, CachedOk;
  }

  lemma {:induction false} DropSettles(log: seq<Blob>, t: Tab)
    requires SettleOk(log, t)
    ensures SettleOk(log, UploadDropped(t)) && SettleOk(log, FlowDropped(t))
  {
    hide RunEffects, AcceptedSince;
  }

  lemma {:induction false} UnlockedSettles(log: seq<Blob>, t: Tab, doc: Doc, key: Key, version: int)
    requires SettleOk(log, t) && t.store.isLocked && t.flow.NoFlow? && t.upload.Quiet?
    requires version != 0 && AcceptedSince(log, version, doc.Text())
    ensures SettleOk(log, Unlocked(t, doc, key, version))
  {
    var st := Store(false, doc, Some(key), version, Idle, t.store.era + 1);
    EffectsSettle(t.(store := st));
    LockedAreIndifferent(log, t);
    IndifferentStay(log, t.store, t.refs.lastSent, st, Some(doc.Text()), t.parked);
    hide RunEffects, AcceptedSince, ParkedSynced;
  }

  lemma {:induction false} EnterSettles(log: seq<Blob>, t: Tab, vek: Option<nat>, meta: Meta, key: Key)
    requires SettleOk(log, t) && !Upgrading(t.flow) && MetaOk(vek, log, meta) && meta.newest.Some?
    requires LoadContents(meta, key).Some? ==> t.store.isLocked && t.upload.Quiet?
    ensures SettleOk(log, Enter(t, meta, key))
  {
    hide RunEffects, Unlocked;
    if LoadContents(meta, key).Some? {
      var (doc, version) := LoadContents(meta, key).value;
      assert log[meta.newest.value.version - 1].doc.Text() == doc.Text();
      UnlockedSettles(log, t.(flow := NoFlow), doc, key, version);
    }
  }

  lemma {:induction false} UnlockSettles(log: seq<Blob>, t: Tab, vek: Option<nat>, mint: Minted)
    requires TabOk(vek, log, t) && SettleOk(log, t) && Tidy(t, TakeUnlock(mint))
    ensures SettleOk(log, UnlockFinished(t, mint))
  {
    if t.flow.Got? {
      var meta := t.flow.meta;
      match t.flow.goal {
        case MasterPassword(master) =>
          var key := ResolveWithMaster(meta, master);
          if key.Some? && !NeedsHealing(meta) { EnterSettles(log, t, vek, meta, key.value); }
        case SecretKey(secret) =>
          var raw := ResolveWithSecret(meta, secret);
          if raw.Some? { EnterSettles(log, t, vek, meta, Vek(raw.value)); }
      }
      hide Enter, LoadContents, AcceptedSince, StoreOk, UploadOk, FetchOk, ParkedOk, ParkedSynced, CachedOk;
    }
  }

  lemma {:induction false} FlowAnswerSettles(log: seq<Blob>, t: Tab, vek: Option<nat>)
    requires Chain(log) && TabOk(vek, log, t) && SettleOk(log, t) && Tidy(t, TakeFlowAnswer)
    ensures SettleOk(log, FlowAnswered(t))
  {
    if t.flow.Replied? && t.flow.reply.Accepted? {
      var v, blob := t.flow.reply.version, t.flow.blob;
      assert log[v - 1].doc.Text() == blob.doc.Text();
      assert AcceptedSince(log, v, blob.doc.Text());
      var done := t.(flow := NoFlow);
      if t.flow.kind.Upgrade? {
        UpgradeOutrunsUpload(log, t, vek);
        var st := Rekeyed(t.store, blob.key, v);
        EffectsSettle(done.(store := st));
        UpgradeOutrunsAll(log, t, vek);
        IndifferentStay(log, t.store, t.refs.lastSent, st, t.refs.lastSent, t.parked);
      } else {
        UnlockedSettles(log, done, FRESH_DOC, blob.key, 1);
      }
      hide RunEffects, Unlocked, AcceptedSince, UploadOk, StoreOk, FetchOk, MetaOk, ParkedOk, ParkedSynced,
          CachedOk, Chain;
    } else {
      hide RunEffects, Unlocked, AcceptedSince, UploadOk, StoreOk, FetchOk, FlowOk, ParkedOk, ParkedSynced,
          CachedOk, Chain;
    }
  }

  lemma {:induction false} UpgradeOutrunsAll(log: seq<Blob>, t: Tab, vek: Option<nat>)
    requires Chain(log) && TabOk(vek, log, t) && Upgraded(t.flow)
    ensures AllIndifferent(log, t.parked)
  {
    hide FlowOk, UploadOk, FetchOk, CachedOk, StoreOk, Chain;
    forall i | 0 <= i < |t.parked|
      ensures Indifferent(log, t.parked[i])
    {
      UpgradeOutrunsUpgrade(vek, log, t.store, t.flow, t.parked[i]);
    }
  }

  lemma {:induction false} UpgradeOutrunsUpload(log: seq<Blob>, t: Tab, vek: Option<nat>)
    requires TabOk(vek, log, t) && SettleOk(log, t)
    requires Upgrading(t.flow) && t.flow.Replied? && t.flow.reply.Accepted?
    ensures t.upload.Sent? ==> t.upload.version <= |log|
    ensures t.upload.Answered? ==> !t.upload.reply.Accepted?
  {
    hide MetaOk, RowOk, WrapsOk, AcceptedSince, FetchOk, ParkedOk, ParkedSynced, CachedOk;
  }

  lemma {:induction false} StartsSettle(log: seq<Blob>, t: Tab, a: Action, d: nat)
    requires SettleOk(log, t) && Tidy(t, a)
    requires a.StartUnlock? || a.StartRegister? || a.StartUpgrade? || a.StartRewrap? || a.StartNewMaster?
             || a.StartKit? || a.SendUpgrade? || a.TakeKeysAnswer? || a.AskMeta? || a.DropMeta?
    requires a.SendUpgrade? && t.flow.Preparing? ==> !t.store.isLocked
    ensures SettleOk(log, Local(t, d, a))
  {
    hide AcceptedSince, RunEffects, ParkedSynced;
  }

  lemma {:induction false} TurnSettles(log: seq<Blob>, t: Tab, i: nat)
    requires SettleOk(log, t)
    ensures SettleOk(log, Turned(t, i))
  {
    hide AcceptedSince, UpgradeSynced;
    assert UpgradeSynced(log, t.store, t.refs.lastSent, NoFlow) by { NothingToSync(log, t.store, t.refs.lastSent); }
  }

  lemma NothingToSync(log: seq<Blob>, st: Store, lastSent: Option<Contents>)
    ensures UpgradeSynced(log, st, lastSent, NoFlow)
  {
  }

  lemma {:induction false} LocalSettles(log: seq<Blob>, t: Tab, vek: Option<nat>, d: nat, a: Action)
    requires Chain(log) && TabOk(vek, log, t) && SettleOk(log, t) && Tidy(t, a)
    ensures SettleOk(log, Local(t, d, a))
  {
    hide Edited, Locked, Retried, BeginUnlock, BeginRegister, BeginUpgrade, BeginRewrap, BeginNewMaster, BeginKit,
         Turned, UpgradeSent, TimerFired, UploadAnswered, ReloadArrived, ReloadDecrypted, UnlockFinished, FlowAnswered,
         KeysAnswered, UploadDropped, FlowDropped, TabOk, Opens, SettleOk, Chain;
    match a {
      case EditContents(after) => EditSettles(log, t, vek, d, after);
      case LockVault => LockSettles(log, t);
      case RetrySync => EditSettles(log, t, vek, d, EMPTY);
      case FireTimer => TimerSettles(log, t);
      case TakeUploadAnswer => AnswerSettles(log, t, vek);
      case TakeReload => ArrivalSettles(log, t, vek);
      case TakeDecryption => ReloadSettles(log, t, vek);
      case TakeUnlock(mint) => UnlockSettles(log, t, vek, mint);
      case TakeFlowAnswer => FlowAnswerSettles(log, t, vek);
      case DropUpload => DropSettles(log, t);
      case DropFlow => DropSettles(log, t);
      case StartUnlock(_) => StartsSettle(log, t, a, d);
      case StartRegister(_, _, _) => StartsSettle(log, t, a, d);
      case StartUpgrade(_, _, _) => StartsSettle(log, t, a, d);
      case SendUpgrade => StartsSettle(log, t, a, d);
      case TurnTo(i) => TurnSettles(log, t, i);
      case StartRewrap(_, _) => StartsSettle(log, t, a, d);
      case StartNewMaster(_) => StartsSettle(log, t, a, d);
      case StartKit(_) => StartsSettle(log, t, a, d);
      case TakeKeysAnswer => StartsSettle(log, t, a, d);
      case AskMeta => StartsSettle(log, t, a, d);
      case DropMeta => StartsSettle(log, t, a, d);
      case _ =>
    }
  }

  // ---- The server and the other tabs ------------------------------------------------

  lemma {:induction false} SettleOutlivesGrowth(log: seq<Blob>, log': seq<Blob>, t: Tab)
    requires SettleOk(log, t) && log <= log'
    ensures SettleOk(log', t)
  {
    forall i | 0 <= i < |t.parked|
      ensures UpgradeSynced(log', t.store, t.refs.lastSent, t.parked[i])
    {
      assert UpgradeSynced(log, t.store, t.refs.lastSent, t.parked[i]);
    }
    if !t.store.isLocked {
      var i :| 0 <= i < |log| && t.store.serverVersion <= i + 1 && log[i].doc.Text() == t.refs.lastSent.value;
      assert log'[i].doc.Text() == t.refs.lastSent.value;
    }
  }

  lemma {:induction false} ServeUploadSettles(s: Server, log: seq<Blob>, t: Tab, d: nat)
    requires ServerOk(s, log) && TabOk(VekOf(s.row), log, t) && SettleOk(log, t)
    ensures var o := Act(s, t, d, ServeUpload);
            SettleOk(if o.accepted.None? then log else log + [o.accepted.value], o.tab)
  {
    if t.upload.Sent? {
      UploadAnswerIs(s, log, t.upload.version, t.upload.blob);
      SettleOutlivesGrowth(log, log + [t.upload.blob], t);
    }
    hide Put, Request, ServerOk, AcceptedSince, LastSentOk, TimerOk, KeyRefsOk, SentOk, MetaOk, FlowOk,
        FetchOk, StoreOk;
  }

  lemma {:induction false} FlowReplySettles(log: seq<Blob>, t: Tab, vek: Option<nat>)
    requires TabOk(vek, log, t) && SettleOk(log, t) && t.flow.Putting?
    ensures var f := t.flow;
            && SettleOk(log, t.(flow := Replied(f.kind, f.version, f.blob, Conflict)))
            && (f.version == |log| + 1 ==>
                  SettleOk(log + [f.blob], t.(flow := Replied(f.kind, f.version, f.blob, Accepted(f.version)))))
  {
    SettleOutlivesGrowth(log, log + [t.flow.blob], t);
    hide AcceptedSince, LastSentOk, TimerOk, KeyRefsOk, UploadOk, MetaOk, InitOk, FetchOk;
  }

  lemma {:induction false} ServeFlowPutSettles(s: Server, log: seq<Blob>, t: Tab, d: nat)
    requires ServerOk(s, log) && TabOk(VekOf(s.row), log, t) && SettleOk(log, t)
    ensures var o := Act(s, t, d, ServeFlowPut);
            SettleOk(if o.accepted.None? then log else log + [o.accepted.value], o.tab)
  {
    hide Put, Request, ServerOk, SettleOk, TabOk;
    if t.flow.Putting? {
      InitAnswerIs(s, log, t.flow.version, t.flow.blob, t.flow.kek, t.flow.recovery);
      FlowReplySettles(log, t, VekOf(s.row));
    }
  }

  lemma {:induction false} ServeKeysSettles(s: Server, log: seq<Blob>, t: Tab, d: nat)
    requires SettleOk(log, t)
    ensures SettleOk(log, Act(s, t, d, ServeKeys).tab)
  {
    hide PutKeys, AcceptedSince;
  }

  lemma {:induction false} ReadSettles(s: Server, log: seq<Blob>, t: Tab, a: Action)
    requires SettleOk(log, t)
    ensures SettleOk(log, ReadFor(s, t, a))
  {
    hide Newest, AcceptedSince;
  }

  lemma {:induction false} ActSettles(s: Server, log: seq<Blob>, t: Tab, d: nat, a: Action)
    requires ServerOk(s, log) && TabOk(VekOf(s.row), log, t) && SettleOk(log, t) && Tidy(t, a)
    ensures var o := Act(s, t, d, a);
            SettleOk(if o.accepted.None? then log else log + [o.accepted.value], o.tab)
  {
    hide TabOk, SettleOk, Local, ReadFor, Put, PutKeys, Tidy, RowOk, Stores;
    ServeUploadSettles(s, log, t, d);
    ServeFlowPutSettles(s, log, t, d);
    ServeKeysSettles(s, log, t, d);
    if !(a.ServeUpload? || a.ServeFlowPut? || a.ServeKeys?) {
      LocalSettles(log, t, VekOf(s.row), d, a);
      ReadSettles(s, log, Local(t, d, a), a);
    }
  }

  lemma {:induction false} StepKeepsSettling(s: System, step: Step)
    requires Settling(s) && TidyStep(s, step)
    ensures Settling(Do(s, step))
  {
    hide SettleOk, TabOk, ServerOk, Act;
    StepKeepsSafe(s, step);
    if step.OnTab? && step.tab in s.tabs {
      var d, t := step.tab, s.tabs[step.tab];
      ActSettles(s.server, s.log, t, d, step.action);
      var s' := Do(s, step);
      forall e | e in s'.tabs && e != d
        ensures SettleOk(s'.log, s'.tabs[e])
      {
        SettleOutlivesGrowth(s.log, s'.log, s.tabs[e]);
      }
    }
  }

  lemma {:induction false} RunKeepsSettling(s: System, steps: seq<Step>)
    requires Settling(s) && TidyRun(s, steps)
    ensures Settling(Run(s, steps))
    decreases |steps|
  {
    if steps == [] {
    } else {
      StepKeepsSettling(s, steps[0]);
      RunKeepsSettling(Do(s, steps[0]), steps[1..]);
    }
    hide Settling, Do;
  }

  lemma {:induction false} TidyRunIsCareful(s: System, steps: seq<Step>)
    requires TidyRun(s, steps)
    ensures CarefulRun(s, steps)
    decreases |steps|
  {
    if steps == [] {
    } else {
      TidyRunIsCareful(Do(s, steps[0]), steps[1..]);
    }
    hide Do;
  }

  lemma {:induction false} InitialIsSettling(s: System)
    requires Initial(s)
    ensures Settling(s)
  {
    InitialIsSafe(s);
    hide Safe;
  }

  /** Whenever an unlocked tab has no timer armed, nothing in flight and no error,
      what it shows is an accepted snapshot no older than its version. */
  lemma {:induction false} QuietTabIsSaved(s: System, steps: seq<Step>, e: System, d: nat)
    requires Initial(s) && TidyRun(s, steps) && e == Run(s, steps) && d in e.tabs
    requires !e.tabs[d].store.isLocked && IsQuiet(e.tabs[d])
    ensures AcceptedSince(e.log, e.tabs[d].store.serverVersion, e.tabs[d].store.doc.Text())
  {
    InitialIsSettling(s);
    RunKeepsSettling(s, steps);
    assert SettleOk(e.log, e.tabs[d]);
    hide Safe, AcceptedSince, Run;
  }

  // ---- Two uploads are enough ---------------------------------------------------------

  /** The sync manager's steps, each when it has something to do. */
  predicate SyncStep(t: Tab, a: Action) {
    match a
    case FireTimer => t.refs.timer
    case ServeUpload => t.upload.Sent?
    case TakeUploadAnswer => t.upload.Answered?
    case _ => false
  }

  predicate IsSync(s: System, d: nat, step: Step)
    requires d in s.tabs
  {
    step.OnTab? && step.tab == d && SyncStep(s.tabs[d], step.action)
  }

  /** Whatever else happens meanwhile, in any tab or on the server, as long as no upload is
      accepted and the tab's own sync state is left alone. */
  predicate Aside(s: System, d: nat, step: Step)
    requires d in s.tabs
  {
    var t, t' := s.tabs[d], Do(s, step).tabs[d];
    && TidyStep(s, step) && Do(s, step).log == s.log
    && t'.store == t.store && t'.refs == t.refs && t'.upload == t.upload
  }

  predicate SyncRun(s: System, d: nat, steps: seq<Step>)
    requires d in s.tabs
    decreases |steps|
  {
    steps == [] ||
    ((IsSync(s, d, steps[0]) || Aside(s, d, steps[0])) && SyncRun(Do(s, steps[0]), d, steps[1..]))
  }

  function Uploads(s: System, d: nat, steps: seq<Step>): nat
    requires d in s.tabs
    decreases |steps|
  {
    if steps == [] then 0
    else
      var rest := Uploads(Do(s, steps[0]), d, steps[1..]);
      if IsSync(s, d, steps[0]) && steps[0].action.ServeUpload? then 1 + rest else rest
  }

  function Syncs(s: System, d: nat, steps: seq<Step>): nat
    requires d in s.tabs
    decreases |steps|
  {
    if steps == [] then 0 else (if IsSync(s, d, steps[0]) then 1 else 0) + Syncs(Do(s, steps[0]), d, steps[1..])
  }

  /** The tab knows the newest version, or its accepted upload is about to tell it,
      and what it has not sent it is about to send. */
  ghost predicate UpToDate(log: seq<Blob>, t: Tab) {
    && !t.store.isLocked
    && (t.upload.Quiet? ==> t.refs.timer || t.refs.lastSent == Some(t.store.doc.Text()))
    && match t.upload
       case Quiet => t.store.serverVersion == |log|
       case Sent(v, _) => v == |log| + 1
       case Answered(v, _, reply) => reply.Accepted? && v == |log|
       case _ => false
  }

  /** Uploads still to come, and steps still to come, if nobody edits. */
  function Due(t: Tab): (nat, nat) {
    var differs := (t.upload.Sent? || t.upload.Answered?) && t.upload.blob.doc.Text() != t.store.doc.Text();
    var again, timer := if differs then 1 else 0, if t.refs.timer then 1 else 0;
    match t.upload
    case Sent(_, _) => (1 + again, 2 + timer + 3 * again)
    case Answered(_, _, _) => (again, 1 + timer + 3 * again)
    case _ => (timer, 3 * timer)
  }

  /** An edit always leaves the tab with its change sent or about to be sent. */
  lemma {:induction false} EditIsUpToDate(vek: Option<nat>, log: seq<Blob>, t: Tab, d: nat, after: Contents)
    requires TabOk(vek, log, t) && SettleOk(log, t) && !t.store.isLocked && t.upload.Quiet?
    requires t.store.serverVersion == |log|
    ensures UpToDate(log, Edited(t, d, after)) && Edited(t, d, after).store.doc.Text() == after
  {
    EffectsSettle(t.(store := t.store.(doc := t.store.doc.Changed(d, after))));
    hide RunEffects, AcceptedSince, FlowOk, MetaOk, FetchOk;
  }

  ghost predicate Counts(log: seq<Blob>, t: Tab, log': seq<Blob>, t': Tab, uploads: nat) {
    && UpToDate(log', t') && t'.store.doc == t.store.doc
    && Due(t').1 < Due(t).1
    && Due(t').0 + uploads <= Due(t).0
  }

  lemma {:induction false} TimerCounts(log: seq<Blob>, t: Tab)
    requires UpToDate(log, t) && KeyRefsOk(t) && t.refs.timer && (t.refs.inFlight <==> !t.upload.Quiet?)
    ensures Counts(log, t, log, TimerFired(t), 0)
  {
  }

  lemma {:induction false} ServeCounts(s: Server, log: seq<Blob>, t: Tab, d: nat)
    requires ServerOk(s, log) && UpToDate(log, t) && t.upload.Sent?
    ensures var o := Act(s, t, d, ServeUpload);
            o.accepted == Some(t.upload.blob) && Counts(log, t, log + [t.upload.blob], o.tab, 1)
  {
    PutIsCompareAndSet(s, log, Request(t.upload.version, t.upload.blob, None, None));
    hide Put, Request, ServerOk;
  }

  lemma {:induction false} AnswerCounts(vek: Option<nat>, log: seq<Blob>, t: Tab)
    requires UpToDate(log, t) && t.upload.Answered? && TabOk(vek, log, t) && SettleOk(log, t)
    ensures Counts(log, t, log, UploadAnswered(t), 0)
  {
    EffectsSettle(Landed(t).(
      store := t.store.(sync := Saved, serverVersion := t.upload.reply.version),
      refs := t.refs.(inFlight := false, lastSent := Some(t.upload.blob.doc.Text()))));
    hide RunEffects, AcceptedSince, FlowOk, FetchOk, MetaOk, SentOk;
  }

  /** What a step of a tab does to that tab and to the log. */
  lemma {:induction false} TabOfStep(s: System, d: nat, a: Action)
    requires d in s.tabs
    ensures var o := Act(s.server, s.tabs[d], d, a);
            var s' := Do(s, OnTab(d, a));
            s'.tabs[d] == o.tab && s'.log == if o.accepted.None? then s.log else s.log + [o.accepted.value]
  {
    hide Act;
  }

  lemma {:induction false} LocalSyncCounts(s: Server, log: seq<Blob>, t: Tab, d: nat, a: Action)
    requires TabOk(VekOf(s.row), log, t) && SettleOk(log, t) && UpToDate(log, t) && SyncStep(t, a) && !a.ServeUpload?
    ensures var o := Act(s, t, d, a);
            o.accepted.None? && Counts(log, t, log, o.tab, 0)
  {
    if a.FireTimer? { TimerCounts(log, t); } else { AnswerCounts(VekOf(s.row), log, t); }
    hide Counts, TimerFired, UploadAnswered, TabOk, SettleOk, UpToDate;
  }

  lemma {:induction false} TabHere(s: System, d: nat)
    requires Settling(s) && d in s.tabs
    ensures TabOk(VekOf(s.server.row), s.log, s.tabs[d]) && SettleOk(s.log, s.tabs[d]) && ServerOk(s.server, s.log)
  {
  }

  lemma {:induction false} SyncStepIsTidy(t: Tab, a: Action)
    requires SyncStep(t, a)
    ensures Tidy(t, a)
  {
  }

  lemma {:induction false} SyncStepCounts(s: System, d: nat, a: Action)
    requires Settling(s) && d in s.tabs && UpToDate(s.log, s.tabs[d]) && SyncStep(s.tabs[d], a)
    ensures var s' := Do(s, OnTab(d, a));
            Settling(s') && Counts(s.log, s.tabs[d], s'.log, s'.tabs[d], if a.ServeUpload? then 1 else 0)
  {
    hide Settling, Counts, Do, Act, UpToDate, Tidy, TabOk, SettleOk, ServerOk;
    var t := s.tabs[d];
    SyncStepIsTidy(t, a);
    TabHere(s, d);
    StepKeepsSettling(s, OnTab(d, a));
    TabOfStep(s, d, a);
    if a.ServeUpload? { ServeCounts(s.server, s.log, t, d); } else { LocalSyncCounts(s.server, s.log, t, d, a); }
  }

  lemma {:induction false} SameSyncCounts(log: seq<Blob>, t: Tab, t': Tab)
    requires UpToDate(log, t) && t'.store == t.store && t'.refs == t.refs && t'.upload == t.upload
    ensures UpToDate(log, t') && Due(t') == Due(t)
  {
  }

  lemma {:induction false} AsideCounts(s: System, d: nat, step: Step)
    requires Settling(s) && d in s.tabs && UpToDate(s.log, s.tabs[d]) && Aside(s, d, step)
    ensures var s' := Do(s, step);
            && Settling(s') && UpToDate(s'.log, s'.tabs[d]) && Due(s'.tabs[d]) == Due(s.tabs[d])
            && s'.tabs[d].store.doc == s.tabs[d].store.doc
  {
    hide Settling, Do, TidyStep, UpToDate, Due;
    StepKeepsSettling(s, step);
    SameSyncCounts(s.log, s.tabs[d], Do(s, step).tabs[d]);
  }

  lemma {:induction false} SyncRunCounts(s: System, d: nat, steps: seq<Step>)
    requires Settling(s) && d in s.tabs && UpToDate(s.log, s.tabs[d]) && SyncRun(s, d, steps)
    ensures var e := Run(s, steps);
            && Settling(e) && UpToDate(e.log, e.tabs[d]) && e.tabs[d].store.doc == s.tabs[d].store.doc
            && Uploads(s, d, steps) <= Due(s.tabs[d]).0 && Syncs(s, d, steps) <= Due(s.tabs[d]).1
    decreases |steps|
  {
    hide Settling, UpToDate, Due, Do, SyncStep, Aside;
    if steps == [] {
    } else {
      var s' := Do(s, steps[0]);
      if IsSync(s, d, steps[0]) {
        SyncStepCounts(s, d, steps[0].action);
        assert Counts(s.log, s.tabs[d], s'.log, s'.tabs[d], if steps[0].action.ServeUpload? then 1 else 0);
      } else {
        AsideCounts(s, d, steps[0]);
      }
      SyncRunCounts(s', d, steps[1..]);
    }
  }

  /** After its last edit an up-to-date tab, left to its sync manager, uploads at
      most twice and stops within six steps of its own; once it has stopped, the newest
      snapshot shows exactly what the tab shows. Other tabs, key flows, reads and prunes
      may interleave, as long as none of them gets an upload accepted. A timer that fires
      while an upload is in flight is dropped and still loses nothing. */
  lemma {:induction false} TwoUploadsSettle(s: System, d: nat, steps: seq<Step>)
    requires Settling(s) && d in s.tabs && UpToDate(s.log, s.tabs[d]) && SyncRun(s, d, steps)
    ensures Uploads(s, d, steps) <= 2 && Syncs(s, d, steps) <= 6
    ensures var e := Run(s, steps);
            var t := e.tabs[d];
            !SyncStep(t, FireTimer) && !SyncStep(t, ServeUpload) && !SyncStep(t, TakeUploadAnswer) ==>
              && e.log != [] && t.store.serverVersion == |e.log|
              && e.log[|e.log| - 1].doc.Text() == s.tabs[d].store.doc.Text()
  {
    hide Settling, Run, SyncRun, Uploads, Syncs;
    SyncRunCounts(s, d, steps);
    var e := Run(s, steps);
    var t := e.tabs[d];
    hide UpToDate;
    if !t.refs.timer && !t.upload.Sent? && !t.upload.Answered? { StoppedIsSaved(e, d); }
  }

  lemma {:induction false} StoppedIsSaved(e: System, d: nat)
    requires Settling(e) && d in e.tabs && UpToDate(e.log, e.tabs[d])
    requires var t := e.tabs[d]; !t.refs.timer && !t.upload.Sent? && !t.upload.Answered?
    ensures e.log != [] && e.tabs[d].store.serverVersion == |e.log|
    ensures e.log[|e.log| - 1].doc.Text() == e.tabs[d].store.doc.Text()
  {
    var t := e.tabs[d];
    assert SettleOk(e.log, t) && TabOk(VekOf(e.server.row), e.log, t);
    assert AcceptedSince(e.log, |e.log|, t.store.doc.Text());
    hide Settling, FlowOk, MetaOk, FetchOk, TimerOk;
  }
}
