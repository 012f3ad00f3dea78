/** One browser tab: the zustand store, the refs and timer of the sync manager,
    and the key flows of the register, unlock and settings pages.

    JavaScript runs from one `await` to the next without interruption, so each
    function below is one such slice, followed by the React effects its store
    writes trigger. Everything a slice keeps across an `await` is in `upload`,
    `flow` and `fetch`. `VaultTabState` is the mutable tab; its methods are
    proved to do exactly what the functions say. */
module VaultTab {
  import opened Basics
  import opened VaultTerms
  import opened VaultServer

  datatype SyncState = Idle | Syncing | Saved | Failed

  /** `era` is not part of the code: it counts the unlocks and rekeys of the tab. */
  datatype Store = Store(
    isLocked: bool, doc: Doc, key: Option<Key>, serverVersion: int, sync: SyncState, era: nat)

  /** `inFlight`, `lastSent`, `hadKey`, and whether the debounce timer is armed. */
  datatype Refs = Refs(inFlight: bool, lastSent: Option<Contents>, hadKey: bool, timer: bool)

  /** Result of GET /vault: the row, and the newest snapshot read after it. */
  datatype Meta = Meta(row: Row, newest: Option<Snapshot>)

  /** The sync manager's upload, and the reload that follows a conflict. `version`
      is the version the upload asked for. */
  datatype Upload =
    | Quiet
    | Sent(version: int, blob: Blob)
    | Answered(version: int, blob: Blob, reply: PutReply)
    | Reloading(version: int)
    | ReloadingNewest(version: int, row: Row)
    | Reloaded(version: int, meta: Meta)
    | ReloadLost(version: int)
    | Decrypting(version: int, with: Key, source: Snapshot, target: int)

  datatype Goal = MasterPassword(master: string) | SecretKey(secret: string)

  datatype PutKind = Register | Heal | Upgrade

  datatype Flow =
    | NoFlow
    | Getting(goal: Goal)
    | GettingNewest(goal: Goal, row: Row)
    | Got(goal: Goal, meta: Meta)
    | Preparing(newKey: Wrap, era: nat)
    | Putting(kind: PutKind, version: int, blob: Blob, kek: Wrap, recovery: Option<Wrap>)
    | Replied(kind: PutKind, version: int, blob: Blob, reply: PutReply)
    | Rewrapping(newKek: Option<Wrap>, newRecovery: Option<Wrap>, ofPending: bool)
    | Rewrapped(ok: bool, ofPending: bool)

  /** The settings page's own GET, with the era in which it began. */
  datatype Fetch = NoFetch | Fetching(era: nat) | FetchingNewest(row: Row, era: nat)

  /** Any number of key flows may be under way, as each page has its own busy flag and a
      handler outlives its page: `flow` is the one that moves next, `parked` the others. */
  datatype Tab = Tab(
    store: Store, refs: Refs, upload: Upload, flow: Flow, parked: seq<Flow>,
    meta: Option<Meta>, metaEra: nat, fetch: Fetch, pendingRaw: Option<nat>)

  const NEW_TAB := Tab(Store(true, FRESH_DOC, None, 0, Idle, 0), Refs(false, None, false, false),
                       Quiet, NoFlow, [], None, 0, NoFetch, None)

  // ---- React effects ----------------------------------------------------------

  function SeedLastSent(t: Tab): Tab {
    if t.store.key.None? then t.(refs := t.refs.(hadKey := false))
    else if t.refs.hadKey then t
    else t.(refs := t.refs.(hadKey := true, lastSent := Some(t.store.doc.Text())))
  }

  function ArmTimer(t: Tab): Tab {
    var text := t.store.doc.Text();
    if t.store.isLocked || t.store.key.None? then t.(refs := t.refs.(timer := false))
    else if t.store.serverVersion == 0 && text == EMPTY then
      t.(refs := t.refs.(timer := false, lastSent := Some(text)))
    else t.(refs := t.refs.(timer := t.refs.lastSent != Some(text)))
  }

  function RunEffects(t: Tab): Tab {
    ArmTimer(SeedLastSent(t))
  }

  // ---- Store transitions ------------------------------------------------------

  function Unlocked(t: Tab, doc: Doc, key: Key, version: int): Tab {
    RunEffects(t.(store := Store(false, doc, Some(key), version, Idle, t.store.era + 1)))
  }

  function Locked(t: Tab): Tab {
    RunEffects(t.(store := Store(true, FRESH_DOC, None, 0, Idle, t.store.era)))
  }

  function Edited(t: Tab, tab: nat, after: Contents): Tab {
    RunEffects(t.(store := t.store.(doc := t.store.doc.Changed(tab, after))))
  }

  function Retried(t: Tab): Tab {
    RunEffects(t.(store := t.store.(sync := Idle)))
  }

  // ---- Sync manager -----------------------------------------------------------

  function TimerFired(t: Tab): Tab {
    if !t.refs.timer then t
    else
      var t := t.(refs := t.refs.(timer := false));
      if t.refs.inFlight || t.store.isLocked || t.store.key.None? then t
      else
        t.(store := t.store.(sync := Syncing), refs := t.refs.(inFlight := true),
           upload := Sent(t.store.serverVersion + 1, Blob(t.store.key.value, t.store.doc)))
  }

  function Landed(t: Tab): Tab {
    t.(upload := Quiet, refs := t.refs.(inFlight := false))
  }

  function UploadAnswered(t: Tab): Tab {
    if !t.upload.Answered? then t
    else
      match t.upload.reply
      case Accepted(v) =>
        var stored := Landed(t).(store := t.store.(sync := Saved, serverVersion := v));
        var sent := stored.(refs := stored.refs.(lastSent := Some(t.upload.blob.doc.Text())));
        if v == t.store.serverVersion then sent else RunEffects(sent)
      case Conflict => t.(upload := Reloading(t.upload.version))
      case Refused => Landed(t).(store := t.store.(sync := Failed))
  }

  /** applyServerContents, with `lastSent` set just before it. */
  function Applied(t: Tab, doc: Doc, version: int): Tab {
    Landed(t).(store := t.store.(doc := doc, serverVersion := version, sync := Saved),
               refs := t.refs.(inFlight := false, lastSent := Some(doc.Text())))
  }

  function ReloadArrived(t: Tab): Tab {
    match t.upload
    case ReloadLost(_) => Landed(t).(store := t.store.(sync := Failed))
    case Reloaded(v, meta) =>
      if t.store.key.None? then Landed(t)
      else (match meta.newest
            case Some(s) => t.(upload := Decrypting(v, t.store.key.value, s, meta.row.version))
            case None =>
              var rebased := Applied(t, t.store.doc, 0);
              if t.store.serverVersion == 0 then rebased else RunEffects(rebased))
    case _ => t
  }

  function ReloadDecrypted(t: Tab): Tab {
    match t.upload
    case Decrypting(_, key, source, target) =>
      (match Open(key, source.blob)
       case Some(doc) => RunEffects(Applied(t, doc, target))
       case None => Landed(t).(store := t.store.(sync := Failed)))
    case _ => t
  }

  /** The network drops the request or the response in transit. */
  function UploadDropped(t: Tab): Tab {
    match t.upload
    case Sent(v, blob) => t.(upload := Answered(v, blob, Refused))
    case Answered(v, blob, _) => t.(upload := Answered(v, blob, Refused))
    case Reloading(v) => t.(upload := ReloadLost(v))
    case ReloadingNewest(v, _) => t.(upload := ReloadLost(v))
    case Reloaded(v, _) => t.(upload := ReloadLost(v))
    case _ => t
  }

  // ---- Key resolution -----------------------------------------------------------

  function ResolveWithMaster(meta: Meta, master: string): Option<Key> {
    match meta.row.kek
    case None => Some(Derived(master))
    case Some(w) =>
      match Unwrap(Derived(master), w, KekTag)
      case None => None
      case Some(raw) => Some(Vek(raw))
  }

  function ResolveWithSecret(meta: Meta, secret: string): Option<nat> {
    if meta.row.recovery.None? then None
    else Unwrap(Recovery(secret), meta.row.recovery.value, RecoveryTag)
  }

  function LoadContents(meta: Meta, key: Key): Option<(Doc, int)> {
    match meta.newest
    case Some(s) => (match Open(key, s.blob) case None => None case Some(doc) => Some((doc, meta.row.version)))
    case None => Some((FRESH_DOC, if meta.row.kek.Some? then meta.row.version else 0))
  }

  // ---- Key flows ------------------------------------------------------------------

  function BeginUnlock(t: Tab, goal: Goal): Tab {
    if t.flow.NoFlow? then t.(flow := Getting(goal)) else t
  }

  function Enter(t: Tab, meta: Meta, key: Key): Tab {
    match LoadContents(meta, key)
    case None => t.(flow := NoFlow)
    case Some((doc, version)) => Unlocked(t.(flow := NoFlow), doc, key, version)
  }

  predicate NeedsHealing(meta: Meta) {
    meta.row.kek.None? && meta.newest.None?
  }

  function UnlockFinished(t: Tab, mint: Minted): Tab {
    if !t.flow.Got? then t
    else
      var meta := t.flow.meta;
      match t.flow.goal
      case MasterPassword(master) =>
        (match ResolveWithMaster(meta, master)
         case None => t.(flow := NoFlow)
         case Some(key) =>
           if NeedsHealing(meta) then
             t.(flow := Putting(Heal, 1, Blob(Vek(mint), FRESH_DOC), Wrap(key, KekTag, mint), None))
           else Enter(t, meta, key))
      case SecretKey(secret) =>
        (match ResolveWithSecret(meta, secret)
         case None => t.(flow := NoFlow)
         case Some(raw) =>
           if LoadContents(meta, Vek(raw)).None? then t.(flow := NoFlow)
           else Enter(t, meta, Vek(raw)).(pendingRaw := Some(raw)))
  }

  function BeginRegister(t: Tab, master: string, secret: string, mint: Minted): Tab {
    if !t.flow.NoFlow? then t
    else t.(flow := Putting(Register, 1, Blob(Vek(mint), FRESH_DOC),
                            Wrap(Derived(master), KekTag, mint), Some(Wrap(Recovery(secret), RecoveryTag, mint))))
  }

  /** The handler checks its metadata first and makes the new key. */
  function BeginUpgrade(t: Tab, current: string, next: string, mint: Minted): Tab {
    if !t.flow.NoFlow? || t.meta.None? then t
    else
      var meta := t.meta.value;
      if meta.row.kek.Some? || meta.newest.None? || Open(Derived(current), meta.newest.value.blob).None? then t
      else t.(flow := Preparing(Wrap(Derived(next), KekTag, mint), t.metaEra))
  }

  /** Only after several awaits does it read the store. */
  function UpgradeSent(t: Tab): Tab {
    if !t.flow.Preparing? then t
    else t.(flow := Putting(Upgrade, t.store.serverVersion + 1, Blob(Vek(t.flow.newKey.raw), t.store.doc),
                            t.flow.newKey, None))
  }

  function Rekeyed(st: Store, key: Key, version: int): Store {
    st.(key := Some(key), serverVersion := version, era := st.era + 1)
  }

  function FlowAnswered(t: Tab): Tab {
    if !t.flow.Replied? then t
    else
      var done := t.(flow := NoFlow);
      if !t.flow.reply.Accepted? then done
      else if !t.flow.kind.Upgrade? then Unlocked(done, FRESH_DOC, t.flow.blob.key, 1)
      else
        RunEffects(done.(store := Rekeyed(t.store, t.flow.blob.key, t.flow.reply.version)))
  }

  function BeginRewrap(t: Tab, current: string, next: string): Tab {
    if !t.flow.NoFlow? || t.meta.None? || t.meta.value.row.kek.None? then t
    else
      match Unwrap(Derived(current), t.meta.value.row.kek.value, KekTag)
      case None => t
      case Some(raw) => t.(flow := Rewrapping(Some(Wrap(Derived(next), KekTag, raw)), None, false))
  }

  /** The raw key is overwritten before the request is sent. */
  function BeginNewMaster(t: Tab, next: string): Tab {
    if !t.flow.NoFlow? || t.pendingRaw.None? then t
    else t.(flow := Rewrapping(Some(Wrap(Derived(next), KekTag, t.pendingRaw.value)), None, true),
            pendingRaw := Some(ZEROED))
  }

  function BeginKit(t: Tab, secret: string): Tab {
    if !t.flow.NoFlow? || t.meta.None? || t.meta.value.row.kek.None? || t.store.key.None? then t
    else
      match ExportRaw(t.store.key.value)
      case None => t
      case Some(raw) => t.(flow := Rewrapping(None, Some(Wrap(Recovery(secret), RecoveryTag, raw)), false))
  }

  function KeysAnswered(t: Tab): Tab {
    if !t.flow.Rewrapped? then t
    else if t.flow.ok && t.flow.ofPending then t.(flow := NoFlow, pendingRaw := None)
    else t.(flow := NoFlow)
  }

  function FlowDropped(t: Tab): Tab {
    match t.flow
    case Getting(_) => t.(flow := NoFlow)
    case GettingNewest(_, _) => t.(flow := NoFlow)
    case Got(_, _) => t.(flow := NoFlow)
    case Preparing(_, _) => t
    case Putting(k, v, blob, _, _) => t.(flow := Replied(k, v, blob, Refused))
    case Replied(k, v, blob, _) => t.(flow := Replied(k, v, blob, Refused))
    case Rewrapping(_, _, p) => t.(flow := Rewrapped(false, p))
    case Rewrapped(_, p) => t.(flow := Rewrapped(false, p))
    case NoFlow => t
  }

  /** Another flow moves next: one that is parked, or a new one. */
  function Turned(t: Tab, i: nat): Tab {
    if i < |t.parked| then t.(flow := t.parked[i], parked := t.parked[i := t.flow])
    else t.(flow := NoFlow, parked := t.parked + [t.flow])
  }

  predicate Upgrading(f: Flow) {
    (f.Putting? || f.Replied?) && f.kind.Upgrade?
  }

  // ---- The tab as it is updated in place ------------------------------------------

  class VaultTabState {
    var isLocked: bool
    var doc: Doc
    var key: Option<Key>
    var serverVersion: int
    var sync: SyncState
    var era: nat
    var inFlight: bool
    var lastSent: Option<Contents>
    var hadKey: bool
    var timer: bool
    var upload: Upload
    var flow: Flow
    var parked: seq<Flow>
    var meta: Option<Meta>
    var metaEra: nat
    var fetch: Fetch
    var pendingRaw: Option<nat>

    function View(): Tab
      reads this
    {
      Tab(Store(isLocked, doc, key, serverVersion, sync, era), Refs(inFlight, lastSent, hadKey, timer),
          upload, flow, parked, meta, metaEra, fetch, pendingRaw)
    }

    constructor ()
      ensures View() == NEW_TAB
    {
      isLocked, doc, key, serverVersion, sync, era := true, FRESH_DOC, None, 0, Idle, 0;
      inFlight, lastSent, hadKey, timer := false, None, false, false;
      upload, flow, parked, meta, metaEra, fetch, pendingRaw := Quiet, NoFlow, [], None, 0, NoFetch, None;
    }

    method Effects()
      modifies `hadKey, `lastSent, `timer
      ensures View() == RunEffects(old(View()))
    {
      if key.Some? && !hadKey {
        hadKey := true;
        lastSent := Some(doc.Text());
      }
      if key.None? { hadKey := false; }

      timer := false;  // the previous run's cleanup
      if isLocked || key.None? { return; }
      var payload := doc.Text();
      if serverVersion == 0 && payload == EMPTY {
        lastSent := Some(payload);
        return;
      }
      if Some(payload) == lastSent { return; }
      timer := true;
    }

    method Unlock(contents: Doc, dataKey: Key, version: int)
      modifies `isLocked, `doc, `key, `serverVersion, `sync, `era, `hadKey, `lastSent, `timer
      ensures View() == Unlocked(old(View()), contents, dataKey, version)
    {
      hide RunEffects, Doc.Text;
      isLocked, doc, key, serverVersion, sync := false, contents, Some(dataKey), version, Idle;
      era := era + 1;
      assert View().store == Store(false, contents, Some(dataKey), version, Idle, old(era) + 1);
      Effects();
    }

    method Lock()
      modifies `isLocked, `doc, `key, `serverVersion, `sync, `hadKey, `lastSent, `timer
      ensures View() == Locked(old(View()))
    {
      hide RunEffects, Doc.Text;
      isLocked, doc, key, serverVersion, sync := true, FRESH_DOC, None, 0, Idle;
      Effects();
    }

    method ChangeContents(tab: nat, after: Contents)
      modifies `doc, `hadKey, `lastSent, `timer
      ensures View() == Edited(old(View()), tab, after)
    {
      hide RunEffects;
      doc := doc.Changed(tab, after);
      Effects();
    }

    method RetrySync()
      modifies `sync, `hadKey, `lastSent, `timer
      ensures View() == Retried(old(View()))
    {
      hide RunEffects, Doc.Text;
      sync := Idle;
      Effects();
    }

    method FireTimer()
      modifies `timer, `inFlight, `sync, `upload
      ensures View() == TimerFired(old(View()))
    {
      hide Doc.Text;
      if !timer { return; }
      timer := false;
      if inFlight { return; }
      inFlight := true;
      if isLocked || key.None? {
        inFlight := false;
        return;
      }
      sync := Syncing;
      upload := Sent(serverVersion + 1, Blob(key.value, doc));
    }

    method AnswerUpload()
      modifies `sync, `serverVersion, `upload, `inFlight, `hadKey, `lastSent, `timer
      ensures View() == UploadAnswered(old(View()))
    {
      hide RunEffects, Doc.Text;
      if !upload.Answered? { return; }
      match upload.reply {
        case Accepted(v) =>
          var changed := v != serverVersion;
          sync := Saved;
          serverVersion := v;
          lastSent := Some(upload.blob.doc.Text());
          upload, inFlight := Quiet, false;
          if changed { Effects(); }
        case Conflict =>
          upload := Reloading(upload.version);
        case Refused =>
          sync := Failed;
          upload, inFlight := Quiet, false;
      }
    }

    method ApplyServerContents(contents: Doc, version: int)
      modifies `doc, `serverVersion, `sync, `lastSent, `upload, `inFlight
      ensures View() == Applied(old(View()), contents, version)
    {
      hide Doc.Text;
      lastSent := Some(contents.Text());
      doc, serverVersion, sync := contents, version, Saved;
      upload, inFlight := Quiet, false;
      assert View().store == old(View()).store.(doc := contents, serverVersion := version, sync := Saved);
    }

    method ArriveReload()
      modifies `doc, `serverVersion, `sync, `upload, `inFlight, `hadKey, `lastSent, `timer
      ensures View() == ReloadArrived(old(View()))
    {
      hide RunEffects, Applied, Doc.Text;
      match upload {
        case ReloadLost(_) =>
          sync := Failed;
          upload, inFlight := Quiet, false;
        case Reloaded(v, vault) =>
          if key.None? {
            upload, inFlight := Quiet, false;
          } else if vault.newest.Some? {
            upload := Decrypting(v, key.value, vault.newest.value, vault.row.version);
          } else {
            var changed := serverVersion != 0;
            ApplyServerContents(doc, 0);
            if changed { Effects(); }
          }
        case _ =>
      }
    }

    method DecryptReload()
      modifies `doc, `serverVersion, `sync, `upload, `inFlight, `hadKey, `lastSent, `timer
      ensures View() == ReloadDecrypted(old(View()))
    {
      hide RunEffects, Applied, Doc.Text;
      if !upload.Decrypting? { return; }
      var plain := Open(upload.with, upload.source.blob);
      if plain.Some? {
        ApplyServerContents(plain.value, upload.target);
        Effects();
      } else {
        sync := Failed;
        upload, inFlight := Quiet, false;
      }
    }

    method EnterVault(vault: Meta, dataKey: Key)
      modifies this
      ensures View() == Enter(old(View()), vault, dataKey)
    {
      flow := NoFlow;
      var contents := LoadContents(vault, dataKey);
      if contents.Some? {
        Unlock(contents.value.0, dataKey, contents.value.1);
      }
    }

    method FinishUnlock(mint: Minted)
      modifies this
      ensures View() == UnlockFinished(old(View()), mint)
    {
      if !flow.Got? { return; }
      var vault := flow.meta;
      match flow.goal {
        case MasterPassword(master) =>
          var resolved := ResolveWithMaster(vault, master);
          if resolved.None? {
            flow := NoFlow;
          } else if vault.row.kek.None? && vault.newest.None? {
            flow := Putting(Heal, 1, Blob(Vek(mint), FRESH_DOC), Wrap(resolved.value, KekTag, mint), None);
          } else {
            EnterVault(vault, resolved.value);
          }
        case SecretKey(secret) =>
          var resolved := ResolveWithSecret(vault, secret);
          if resolved.None? || LoadContents(vault, Vek(resolved.value)).None? {
            flow := NoFlow;
          } else {
            EnterVault(vault, Vek(resolved.value));
            pendingRaw := resolved;
          }
      }
    }

    method StartUpgrade(current: string, next: string, mint: Minted)
      modifies this
      ensures View() == BeginUpgrade(old(View()), current, next, mint)
    {
      if !flow.NoFlow? || meta.None? { return; }
      var vault := meta.value;
      if vault.row.kek.Some? || vault.newest.None? { return; }
      if Open(Derived(current), vault.newest.value.blob).None? { return; }
      flow := Preparing(Wrap(Derived(next), KekTag, mint), metaEra);
    }

    method SendUpgrade()
      modifies `flow
      ensures View() == UpgradeSent(old(View()))
    {
      if !flow.Preparing? { return; }
      var kekWrap := flow.newKey;
      flow := Putting(Upgrade, serverVersion + 1, Blob(Vek(kekWrap.raw), doc), kekWrap, None);
    }

    method AnswerFlow()
      modifies this
      ensures View() == FlowAnswered(old(View()))
    {
      hide Doc.Text;
      if !flow.Replied? { return; }
      var kind, sent, reply := flow.kind, flow.blob, flow.reply;
      flow := NoFlow;
      if !reply.Accepted? { return; }
      if kind.Upgrade? {
        key := Some(sent.key);
        serverVersion := reply.version;
        era := era + 1;
        assert View().store == Rekeyed(old(View()).store, sent.key, reply.version);
        Effects();
      } else {
        Unlock(FRESH_DOC, sent.key, 1);
      }
    }

    method StartRewrap(current: string, next: string)
      modifies `flow
      ensures View() == BeginRewrap(old(View()), current, next)
    {
      if !flow.NoFlow? || meta.None? || meta.value.row.kek.None? { return; }
      var raw := Unwrap(Derived(current), meta.value.row.kek.value, KekTag);
      if raw.Some? {
        flow := Rewrapping(Some(Wrap(Derived(next), KekTag, raw.value)), None, false);
      }
    }

    method StartNewMaster(next: string)
      modifies `flow, `pendingRaw
      ensures View() == BeginNewMaster(old(View()), next)
    {
      if !flow.NoFlow? || pendingRaw.None? { return; }
      var wrapped := Wrap(Derived(next), KekTag, pendingRaw.value);
      pendingRaw := Some(ZEROED);
      flow := Rewrapping(Some(wrapped), None, true);
    }

    method StartKit(secret: string)
      modifies `flow
      ensures View() == BeginKit(old(View()), secret)
    {
      if !flow.NoFlow? || meta.None? || meta.value.row.kek.None? || key.None? { return; }
      var raw := ExportRaw(key.value);
      if raw.Some? {
        flow := Rewrapping(None, Some(Wrap(Recovery(secret), RecoveryTag, raw.value)), false);
      }
    }
  }
}
