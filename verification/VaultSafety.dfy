/** No lost update and one key hierarchy, over every careful run. */
module VaultSafety {
  import opened Basics
  import opened VaultTerms
  import opened VaultServer
  import opened VaultTab
  import opened VaultProtocol

  // ---- The accepted snapshots --------------------------------------------------

  /** `later` was edited from `earlier`, and is sealed under the same key or under
      a random key that replaced a derived one. */
  ghost predicate Precedes(earlier: Blob, later: Blob) {
    && earlier.doc.trail <= later.doc.trail
    && (earlier.key == later.key || (earlier.key.Derived? && later.key.Vek?))
  }

  ghost predicate Chain(log: seq<Blob>) {
    && (forall i, j :: 0 <= i <= j < |log| ==> Precedes(log[i], log[j]))
    && (forall i :: 0 <= i < |log| ==> !log[i].key.Recovery?)
  }

  lemma {:induction false} ChainGrows(log: seq<Blob>, b: Blob)
    requires Chain(log) && !b.key.Recovery?
    requires log != [] ==> Precedes(log[|log| - 1], b)
    ensures Chain(log + [b])
  {
    var grown := log + [b];
    forall i, j | 0 <= i <= j < |grown|
      ensures Precedes(grown[i], grown[j])
    {
      if j < |log| {
        assert Precedes(log[i], log[j]);
      } else if i < |log| {
        assert Precedes(log[i], log[|log| - 1]);
      }
    }
  }

  function VekOf(row: Row): Option<nat> {
    if row.kek.None? then None else Some(row.kek.value.raw)
  }

  // ---- What a row, a GET answer and a tab may hold --------------------------------
  // `vek` is the key the server's current kek_wrap holds, if any.

  ghost predicate WrapsOk(kek: Option<Wrap>, recovery: Option<Wrap>, vek: Option<nat>) {
    && (kek.Some? ==> kek.value.tag == KekTag && kek.value.under.Derived? && vek == Some(kek.value.raw))
    && (recovery.Some? ==> recovery.value.tag == RecoveryTag && recovery.value.under.Recovery?
                           && vek == Some(recovery.value.raw))
  }

  ghost predicate RowOk(vek: Option<nat>, log: seq<Blob>, row: Row) {
    && WrapsOk(row.kek, row.recovery, vek)
    && (row.recovery.Some? ==> row.kek.Some?)
    && 1 <= row.version
    && (row.version <= |log| || (row.version == 1 && row.kek.None?))
    && (row.kek.Some? ==> row.version <= |log| && log[row.version - 1].key == Vek(row.kek.value.raw))
  }

  ghost predicate SnapshotOk(log: seq<Blob>, s: Snapshot) {
    1 <= s.version <= |log| && log[s.version - 1] == s.blob
  }

  /** The version a GET reports never exceeds that of the snapshot it returns. */
  ghost predicate MetaOk(vek: Option<nat>, log: seq<Blob>, m: Meta) {
    && RowOk(vek, log, m.row)
    && (m.newest.Some? ==> SnapshotOk(log, m.newest.value) && m.row.version <= m.newest.value.version)
    && (m.newest.None? ==> m.row.kek.None? && m.row.version == 1)
  }

  /** An unlocked copy was edited from the snapshot its version names. */
  ghost predicate StoreOk(vek: Option<nat>, log: seq<Blob>, st: Store) {
    && (st.key.Some? ==> !st.key.value.Recovery? && (st.key.value.Vek? ==> vek == Some(st.key.value.raw)))
    && (!st.isLocked ==>
          && st.key.Some?
          && 1 <= st.serverVersion <= |log|
          && log[st.serverVersion - 1].doc.trail <= st.doc.trail
          && (st.key.value.Derived? ==> log[st.serverVersion - 1].key == st.key.value))
  }

  ghost predicate HoldsDerived(st: Store) {
    !st.isLocked && st.key.Some? && st.key.value.Derived?
  }

  /** An upload without wraps, as it was sent. */
  ghost predicate SentOk(vek: Option<nat>, log: seq<Blob>, st: Store, version: int, blob: Blob)
    requires 2 <= version <= |log| + 1
  {
    && log[version - 2].doc.trail <= blob.doc.trail
    && !blob.key.Recovery?
    && (blob.key.Derived? ==> log[version - 2].key == blob.key)
    && (blob.key.Vek? ==> vek == Some(blob.key.raw))
    && (!st.isLocked ==> blob.doc.trail <= st.doc.trail)
    && (HoldsDerived(st) ==> blob.key == st.key.value)
  }

  ghost predicate UploadOk(vek: Option<nat>, log: seq<Blob>, st: Store, u: Upload) {
    u.Quiet? ||
    (&& 2 <= u.version <= |log| + 1
     && (!st.isLocked ==> st.serverVersion <= u.version)
     && (HoldsDerived(st) ==> st.serverVersion + 1 == u.version)
     && match u
        case Sent(v, blob) => SentOk(vek, log, st, v, blob)
        case Answered(v, blob, reply) =>
          && SentOk(vek, log, st, v, blob)
          && (reply.Accepted? ==> reply.version == v && v <= |log| && log[v - 1] == blob)
          && (reply.Conflict? ==> v <= |log|)
        case Reloading(v) => v <= |log|
        case ReloadingNewest(v, row) => v <= |log| && RowOk(vek, log, row) && v <= row.version
        case Reloaded(v, meta) => v <= |log| && MetaOk(vek, log, meta) && v <= meta.row.version
        case ReloadLost(v) => v <= |log|
        case Decrypting(v, key, source, target) =>
          && SnapshotOk(log, source) && v <= target <= source.version
          && (HoldsDerived(st) ==> key == st.key.value)
        case Quiet => true)
  }

  /** An upload that carries a kek_wrap. */
  ghost predicate InitOk(kind: PutKind, version: int, blob: Blob, kek: Wrap, recovery: Option<Wrap>) {
    && blob.key.Vek?
    && WrapsOk(Some(kek), recovery, Some(blob.key.raw))
    && (kind.Upgrade? ==> recovery.None?)
    && (!kind.Upgrade? ==> version == 1 && blob.doc == FRESH_DOC)
  }

  /** An upgrade, as it was sent. */
  ghost predicate UpgradeOk(log: seq<Blob>, version: int, blob: Blob) {
    && 2 <= version <= |log| + 1
    && log[version - 2].doc.trail <= blob.doc.trail
    && log[version - 2].key.Derived?
  }

  /** While an upgrade can be accepted or is, an unlocked tab still holds the derived key
      and contents edited from those it sent. */
  ghost predicate UpgradeLive(st: Store, version: int, blob: Blob) {
    !st.isLocked ==> HoldsDerived(st) && version <= st.serverVersion + 1 && blob.doc.trail <= st.doc.trail
  }

  ghost predicate FlowOk(vek: Option<nat>, log: seq<Blob>, st: Store, f: Flow) {
    match f
    case NoFlow => true
    case Getting(_) => true
    case GettingNewest(_, row) => RowOk(vek, log, row)
    case Got(_, meta) => MetaOk(vek, log, meta)
    case Preparing(kek, era) =>
      && kek.tag == KekTag && kek.under.Derived?
      && era <= st.era && (era == st.era && !st.isLocked ==> HoldsDerived(st))
    case Putting(kind, v, blob, kek, recovery) =>
      && InitOk(kind, v, blob, kek, recovery)
      && (kind.Upgrade? ==> UpgradeOk(log, v, blob) && (v == |log| + 1 ==> UpgradeLive(st, v, blob)))
    case Replied(kind, v, blob, reply) =>
      && blob.key.Vek?
      && (!kind.Upgrade? ==> v == 1 && blob.doc == FRESH_DOC)
      && (kind.Upgrade? ==> UpgradeOk(log, v, blob))
      && (reply.Accepted? ==>
            && reply.version == v <= |log| && log[v - 1] == blob && vek == Some(blob.key.raw)
            && (kind.Upgrade? ==> UpgradeLive(st, v, blob)))
    case Rewrapping(kek, recovery, _) => WrapsOk(kek, recovery, vek)
    case Rewrapped(_, _) => true
  }

  /** An upgrade that took the next version. */
  predicate Upgraded(f: Flow) {
    f.Replied? && f.kind.Upgrade? && f.reply.Accepted?
  }

  /** Every parked flow, and of all flows of a tab at most one upgrade took a version;
      `upgraded` says whether the flow at hand did. */
  ghost predicate ParkedOk(vek: Option<nat>, log: seq<Blob>, st: Store, upgraded: bool, parked: seq<Flow>) {
    && (forall i :: 0 <= i < |parked| ==> FlowOk(vek, log, st, parked[i]))
    && (forall i :: 0 <= i < |parked| && Upgraded(parked[i]) ==> !upgraded)
    && (forall i, j :: 0 <= i < j < |parked| ==> !(Upgraded(parked[i]) && Upgraded(parked[j])))
  }

  ghost predicate FetchOk(vek: Option<nat>, log: seq<Blob>, st: Store, f: Fetch) {
    && (f.Fetching? ==> f.era <= st.era)
    && (f.FetchingNewest? ==>
          && RowOk(vek, log, f.row) && f.era <= st.era
          && (f.era == st.era && f.row.kek.None? && !st.isLocked ==> HoldsDerived(st)))
  }

  ghost predicate CachedOk(vek: Option<nat>, log: seq<Blob>, st: Store, meta: Option<Meta>, era: nat) {
    meta.Some? ==>
      && MetaOk(vek, log, meta.value) && era <= st.era
      && (era == st.era && meta.value.row.kek.None? && !st.isLocked ==> HoldsDerived(st))
  }

  ghost predicate TabOk(vek: Option<nat>, log: seq<Blob>, t: Tab) {
    && StoreOk(vek, log, t.store)
    && UploadOk(vek, log, t.store, t.upload)
    && FlowOk(vek, log, t.store, t.flow)
    && ParkedOk(vek, log, t.store, Upgraded(t.flow), t.parked)
    && FetchOk(vek, log, t.store, t.fetch)
    && CachedOk(vek, log, t.store, t.meta, t.metaEra)
    && (t.refs.inFlight <==> !t.upload.Quiet?)
    && (t.pendingRaw.Some? ==> t.pendingRaw == Some(ZEROED) || vek == t.pendingRaw)
  }

  /** The row names the key of the newest snapshot; without a kek_wrap every
      snapshot is sealed under the derived key. */
  ghost predicate ServerOk(s: Server, log: seq<Blob>) {
    && Stores(s, log)
    && Chain(log)
    && RowOk(VekOf(s.row), log, s.row)
    && (s.row.kek.None? && log != [] ==> log[|log| - 1].key.Derived?)
  }

  ghost predicate Safe(s: System) {
    && ServerOk(s.server, s.log)
    && (s.pruning.Some? ==> s.pruning.value < |s.log| || s.pruning.value <= 0)
    && forall d :: d in s.tabs ==> TabOk(VekOf(s.server.row), s.log, s.tabs[d])
  }

  // ---- Slices of a tab keep TabOk ---------------------------------------------------

  lemma {:induction false} EffectsTouchOnlyRefs(t: Tab)
    ensures RunEffects(t) == t.(refs := RunEffects(t).refs)
    ensures RunEffects(t).refs.inFlight == t.refs.inFlight
  {
  }

  /** The store was locked, or still holds the same session's contents and key. */
  ghost predicate SessionKept(st: Store, st': Store) {
    st'.era == st.era &&
    (st'.isLocked ||
    (!st.isLocked && st'.key == st.key && st.doc.trail <= st'.doc.trail && st.serverVersion <= st'.serverVersion))
  }

  lemma {:induction false} ParkedSurvives(vek: Option<nat>, log: seq<Blob>, st: Store, st': Store, upgraded: bool,
                                          parked: seq<Flow>)
    requires ParkedOk(vek, log, st, upgraded, parked) && SessionKept(st, st')
    ensures ParkedOk(vek, log, st', upgraded, parked)
  {
    hide FlowOk, SessionKept;
    forall i | 0 <= i < |parked|
      ensures FlowOk(vek, log, st', parked[i])
    {
      FlowSurvives(vek, log, st, st', parked[i]);
    }
  }

  /** The flow at hand may only stop being an accepted upgrade. */
  lemma {:induction false} ParkedStays(vek: Option<nat>, log: seq<Blob>, st: Store, upgraded: bool, parked: seq<Flow>)
    requires ParkedOk(vek, log, st, upgraded, parked)
    ensures ParkedOk(vek, log, st, false, parked)
  {
    hide FlowOk;
  }

  lemma {:induction false} TurnKeeps(vek: Option<nat>, log: seq<Blob>, t: Tab, i: nat)
    requires TabOk(vek, log, t)
    ensures TabOk(vek, log, Turned(t, i))
  {
    hide FlowOk, UploadOk, StoreOk, FetchOk, CachedOk;
    assert FlowOk(vek, log, t.store, NoFlow) by { NoFlowOk(vek, log, t.store); }
  }

  lemma NoFlowOk(vek: Option<nat>, log: seq<Blob>, st: Store)
    ensures FlowOk(vek, log, st, NoFlow)
  {
  }

  lemma {:induction false} FlowSurvives(vek: Option<nat>, log: seq<Blob>, st: Store, st': Store, f: Flow)
    requires FlowOk(vek, log, st, f) && SessionKept(st, st')
    ensures FlowOk(vek, log, st', f)
  {
    hide MetaOk, RowOk, WrapsOk;
  }

  lemma {:induction false} UploadSurvives(vek: Option<nat>, log: seq<Blob>, st: Store, st': Store, u: Upload)
    requires UploadOk(vek, log, st, u) && SessionKept(st, st')
    requires st'.isLocked || st'.serverVersion == st.serverVersion
    ensures UploadOk(vek, log, st', u)
  {
    hide MetaOk, RowOk;
  }

  lemma {:induction false} StoreChangeKeeps(vek: Option<nat>, log: seq<Blob>, t: Tab, st': Store)
    requires TabOk(vek, log, t) && SessionKept(t.store, st') && StoreOk(vek, log, st')
    requires t.upload.Quiet? || st'.isLocked || st'.serverVersion == t.store.serverVersion
    ensures TabOk(vek, log, t.(store := st'))
  {
    FlowSurvives(vek, log, t.store, st', t.flow);
    ParkedSurvives(vek, log, t.store, st', Upgraded(t.flow), t.parked);
    if !t.upload.Quiet? { UploadSurvives(vek, log, t.store, st', t.upload); }
    hide UploadOk, FlowOk, ParkedOk, MetaOk, RowOk, StoreOk;
  }

  lemma {:induction false} UserKeeps(vek: Option<nat>, log: seq<Blob>, t: Tab, d: nat, after: Contents)
    requires TabOk(vek, log, t)
    ensures TabOk(vek, log, Edited(t, d, after))
    ensures TabOk(vek, log, Locked(t))
    ensures TabOk(vek, log, Retried(t))
  {
    var edited := t.store.(doc := t.store.doc.Changed(d, after));
    var locked := Store(true, FRESH_DOC, None, 0, Idle, t.store.era);
    var retried := t.store.(sync := Idle);
    StoreChangeKeeps(vek, log, t, edited);
    StoreChangeKeeps(vek, log, t, locked);
    StoreChangeKeeps(vek, log, t, retried);
    EffectsTouchOnlyRefs(t.(store := edited));
    EffectsTouchOnlyRefs(t.(store := locked));
    EffectsTouchOnlyRefs(t.(store := retried));
    hide RunEffects, UploadOk, FlowOk, MetaOk, RowOk, StoreOk;
  }

  lemma {:induction false} TimerKeeps(vek: Option<nat>, log: seq<Blob>, t: Tab)
    requires TabOk(vek, log, t)
    ensures TabOk(vek, log, TimerFired(t))
  {
    hide FlowOk, MetaOk, RowOk;
    StoreChangeKeeps(vek, log, t, t.store.(sync := Syncing));
  }

  lemma {:induction false} AnswerKeeps(vek: Option<nat>, log: seq<Blob>, t: Tab)
    requires Chain(log) && TabOk(vek, log, t)
    ensures TabOk(vek, log, UploadAnswered(t))
  {
    if t.upload.Answered? {
      var quiet := Landed(t);
      match t.upload.reply {
        case Conflict =>
          hide FlowOk, MetaOk, RowOk, StoreOk;
        case Refused =>
          StoreChangeKeeps(vek, log, quiet, t.store.(sync := SyncState.Failed));
          hide UploadOk, FlowOk, MetaOk, RowOk, StoreOk;
        case Accepted(v) =>
          var stored := t.store.(sync := Saved, serverVersion := v);
          AcceptedFits(vek, log, t);
          StoreChangeKeeps(vek, log, quiet, stored);
          EffectsTouchOnlyRefs(quiet.(store := stored,
                                         refs := t.refs.(inFlight := false,
                                                         lastSent := Some(t.upload.blob.doc.Text()))));
          hide RunEffects, UploadOk, FlowOk, MetaOk, RowOk, StoreOk;
      }
    }
  }

  /** An accepted upload is the tab's own copy, so far, one version on. */
  lemma {:induction false} AcceptedFits(vek: Option<nat>, log: seq<Blob>, t: Tab)
    requires TabOk(vek, log, t) && t.upload.Answered? && t.upload.reply.Accepted?
    ensures var stored := t.store.(sync := Saved, serverVersion := t.upload.reply.version);
            StoreOk(vek, log, stored) && SessionKept(t.store, stored)
  {
    hide FlowOk, MetaOk, RowOk;
  }

  lemma {:induction false} ArrivalKeeps(vek: Option<nat>, log: seq<Blob>, t: Tab)
    requires TabOk(vek, log, t)
    ensures TabOk(vek, log, ReloadArrived(t))
  {
    hide FlowOk, RowOk;
    if t.upload.ReloadLost? {
      StoreChangeKeeps(vek, log, Landed(t), t.store.(sync := SyncState.Failed));
    }
  }

  lemma {:induction false} DropKeeps(vek: Option<nat>, log: seq<Blob>, t: Tab)
    requires TabOk(vek, log, t)
    ensures TabOk(vek, log, UploadDropped(t))
  {
    hide RowOk, StoreOk, FlowOk, FetchOk;
  }

  lemma {:induction false} FlowDropKeeps(vek: Option<nat>, log: seq<Blob>, t: Tab)
    requires TabOk(vek, log, t)
    ensures TabOk(vek, log, FlowDropped(t))
  {
    hide RowOk, StoreOk, UploadOk, FetchOk;
  }

  /** A conflict reload may replace contents an upgrade in transit was made from, but
      only when that upgrade can no longer be accepted. */
  lemma {:induction false} ReloadOutrunsUpgrade(vek: Option<nat>, log: seq<Blob>, t: Tab, f: Flow)
    requires Chain(log) && UploadOk(vek, log, t.store, t.upload) && FlowOk(vek, log, t.store, f)
    requires t.upload.Decrypting? && !t.store.isLocked && t.upload.with == t.upload.source.blob.key
    ensures f.Putting? && f.kind.Upgrade? ==> f.version <= |log|
    ensures !Upgraded(f)
  {
    hide MetaOk, RowOk, WrapsOk;
  }

  /** A flow that is no upgrade which can be, or was, accepted does not look at what an
      unlocked store of the same era holds. */
  lemma {:induction false} FlowIgnoresContents(vek: Option<nat>, log: seq<Blob>, st: Store, st': Store, f: Flow)
    requires FlowOk(vek, log, st, f) && !Upgraded(f)
    requires f.Putting? && f.kind.Upgrade? ==> f.version <= |log|
    requires st'.isLocked == st.isLocked && st'.key == st.key && st'.era == st.era
    ensures FlowOk(vek, log, st', f)
  {
    hide MetaOk, RowOk, WrapsOk;
  }

  lemma {:induction false} ReloadKeepsFlow(vek: Option<nat>, log: seq<Blob>, t: Tab, st': Store, f: Flow)
    requires Chain(log) && UploadOk(vek, log, t.store, t.upload) && FlowOk(vek, log, t.store, f)
    requires t.upload.Decrypting? && t.upload.with == t.upload.source.blob.key
    requires st'.isLocked == t.store.isLocked && st'.key == t.store.key && st'.era == t.store.era
    ensures FlowOk(vek, log, st', f)
  {
    hide UploadOk, FlowOk, Chain;
    if t.store.isLocked {
      FlowSurvives(vek, log, t.store, st', f);
    } else {
      ReloadOutrunsUpgrade(vek, log, t, f);
      FlowIgnoresContents(vek, log, t.store, st', f);
    }
  }

  lemma {:induction false} ReloadedStoreFits(vek: Option<nat>, log: seq<Blob>, t: Tab, doc: Doc)
    requires Chain(log) && TabOk(vek, log, t) && t.upload.Decrypting?
    requires Open(t.upload.with, t.upload.source.blob) == Some(doc)
    ensures var st := t.store.(doc := doc, serverVersion := t.upload.target, sync := Saved);
            && StoreOk(vek, log, st)
            && (!st.isLocked ==> t.store.serverVersion <= st.serverVersion)
  {
    hide FlowOk, MetaOk, RowOk;
    assert Precedes(log[t.upload.target - 1], log[t.upload.source.version - 1]);
  }

  lemma {:induction false} ReloadKeepsParked(vek: Option<nat>, log: seq<Blob>, t: Tab, st': Store)
    requires Chain(log) && TabOk(vek, log, t) && t.upload.Decrypting? && t.upload.with == t.upload.source.blob.key
    requires st'.isLocked == t.store.isLocked && st'.key == t.store.key && st'.era == t.store.era
    ensures ParkedOk(vek, log, st', Upgraded(t.flow), t.parked)
  {
    hide FlowOk, UploadOk, StoreOk, FetchOk, CachedOk, Chain;
    forall i | 0 <= i < |t.parked|
      ensures FlowOk(vek, log, st', t.parked[i])
    {
      ReloadKeepsFlow(vek, log, t, st', t.parked[i]);
    }
  }

  lemma {:induction false} ReloadKeeps(vek: Option<nat>, log: seq<Blob>, t: Tab)
    requires Chain(log) && TabOk(vek, log, t)
    ensures TabOk(vek, log, ReloadDecrypted(t))
  {
    if t.upload.Decrypting? {
      var plain := Open(t.upload.with, t.upload.source.blob);
      if plain.None? {
        StoreChangeKeeps(vek, log, Landed(t), t.store.(sync := SyncState.Failed));
        hide UploadOk, FlowOk, MetaOk, RowOk, StoreOk;
      } else {
        var st := t.store.(doc := plain.value, serverVersion := t.upload.target, sync := Saved);
        ReloadedStoreFits(vek, log, t, plain.value);
        ReloadKeepsFlow(vek, log, t, st, t.flow);
        ReloadKeepsParked(vek, log, t, st);
        EffectsTouchOnlyRefs(Applied(t, plain.value, t.upload.target));
        hide RunEffects, UploadOk, FlowOk, ParkedOk, MetaOk, RowOk, StoreOk;
      }
    }
  }

  /** The key a GET answer resolves to is the current one for what it opens. */
  lemma {:induction false} OpenedStoreFits(vek: Option<nat>, log: seq<Blob>, meta: Meta, key: Key)
    requires Chain(log) && MetaOk(vek, log, meta) && meta.newest.Some? && LoadContents(meta, key).Some?
    requires !key.Recovery? && (key.Vek? ==> vek == Some(key.raw))
    ensures var (doc, version) := LoadContents(meta, key).value;
            forall era :: StoreOk(vek, log, Store(false, doc, Some(key), version, Idle, era))
  {
    assert Precedes(log[meta.row.version - 1], log[meta.newest.value.version - 1]);
  }

  /** The start of an era concerns only upgrades that can be, or were, accepted. */
  lemma {:induction false} FlowOutlivesEra(vek: Option<nat>, log: seq<Blob>, st: Store, st': Store, f: Flow)
    requires FlowOk(vek, log, st, f) && !Upgraded(f) && st.era < st'.era
    requires f.Putting? && f.kind.Upgrade? ==> f.version <= |log|
    ensures FlowOk(vek, log, st', f)
  {
    hide MetaOk, RowOk, WrapsOk;
  }

  predicate NoneUpgrading(parked: seq<Flow>) {
    forall i :: 0 <= i < |parked| ==> !Upgrading(parked[i])
  }

  lemma {:induction false} ParkedOutlivesUnlock(vek: Option<nat>, log: seq<Blob>, st: Store, st': Store,
                                                parked: seq<Flow>)
    requires ParkedOk(vek, log, st, false, parked) && NoneUpgrading(parked) && st.era < st'.era
    ensures ParkedOk(vek, log, st', false, parked)
  {
    hide FlowOk;
    forall i | 0 <= i < |parked|
      ensures FlowOk(vek, log, st', parked[i])
    {
      FlowOutlivesEra(vek, log, st, st', parked[i]);
    }
  }

  lemma {:induction false} UnlockedKeeps(vek: Option<nat>, log: seq<Blob>, t: Tab, doc: Doc, key: Key, version: int)
    requires TabOk(vek, log, t) && t.upload.Quiet? && t.flow.NoFlow? && NoneUpgrading(t.parked)
    requires StoreOk(vek, log, Store(false, doc, Some(key), version, Idle, t.store.era + 1))
    ensures TabOk(vek, log, Unlocked(t, doc, key, version))
  {
    var st' := Store(false, doc, Some(key), version, Idle, t.store.era + 1);
    ParkedOutlivesUnlock(vek, log, t.store, st', t.parked);
    NoFlowOk(vek, log, st');
    EffectsTouchOnlyRefs(t.(store := st'));
    hide RunEffects, MetaOk, RowOk, StoreOk, FlowOk, ParkedOk, NoneUpgrading;
  }

  lemma {:induction false} WithoutFlow(vek: Option<nat>, log: seq<Blob>, t: Tab)
    requires TabOk(vek, log, t)
    ensures TabOk(vek, log, t.(flow := NoFlow))
  {
    ParkedStays(vek, log, t.store, Upgraded(t.flow), t.parked);
    NoFlowOk(vek, log, t.store);
    hide FlowOk, ParkedOk, UploadOk, StoreOk, FetchOk, CachedOk;
  }

  lemma {:induction false} EnterKeeps(vek: Option<nat>, log: seq<Blob>, t: Tab, meta: Meta, key: Key)
    requires Chain(log) && TabOk(vek, log, t) && MetaOk(vek, log, meta) && meta.newest.Some?
    requires LoadContents(meta, key).Some? ==> t.upload.Quiet? && NoneUpgrading(t.parked)
    requires !key.Recovery? && (key.Vek? ==> vek == Some(key.raw))
    ensures TabOk(vek, log, Enter(t, meta, key))
  {
    hide MetaOk, RowOk, StoreOk, Unlocked, TabOk, NoneUpgrading;
    WithoutFlow(vek, log, t);
    if LoadContents(meta, key).Some? {
      var (doc, version) := LoadContents(meta, key).value;
      OpenedStoreFits(vek, log, meta, key);
      UnlockedKeeps(vek, log, t.(flow := NoFlow), doc, key, version);
    }
  }

  lemma {:induction false} UnlockKeeps(vek: Option<nat>, log: seq<Blob>, t: Tab, mint: Minted)
    requires Chain(log) && TabOk(vek, log, t)
    requires CompletesUnlock(t, TakeUnlock(mint)) ==> t.upload.Quiet? && NoneUpgrading(t.parked)
    ensures TabOk(vek, log, UnlockFinished(t, mint))
  {
    hide NoneUpgrading;
    if t.flow.Got? {
      var meta := t.flow.meta;
      WithoutFlow(vek, log, t);
      match t.flow.goal {
        case MasterPassword(master) =>
          var key := ResolveWithMaster(meta, master);
          if key.Some? && !NeedsHealing(meta) {
            EnterKeeps(vek, log, t, meta, key.value);
          }
          hide Enter, StoreOk, UploadOk, LoadContents, ParkedOk, FetchOk, CachedOk;
        case SecretKey(secret) =>
          var raw := ResolveWithSecret(meta, secret);
          if raw.Some? {
            EnterKeeps(vek, log, t, meta, Vek(raw.value));
          }
          hide Enter, StoreOk, UploadOk, FlowOk, LoadContents, ParkedOk, FetchOk, CachedOk;
      }
    }
  }

  lemma {:induction false} UpgradeSendKeeps(vek: Option<nat>, log: seq<Blob>, t: Tab)
    requires TabOk(vek, log, t) && (t.flow.Preparing? ==> !t.store.isLocked && t.flow.era == t.store.era)
    ensures TabOk(vek, log, UpgradeSent(t))
  {
    hide UploadOk, RowOk, ParkedOk, FetchOk, CachedOk;
  }

  lemma {:induction false} StartsKeep(vek: Option<nat>, log: seq<Blob>, t: Tab, goal: Goal,
                                      current: string, next: string, secret: string, mint: Minted)
    requires TabOk(vek, log, t)
    ensures TabOk(vek, log, BeginUnlock(t, goal))
    ensures TabOk(vek, log, BeginRegister(t, next, secret, mint))
    ensures TabOk(vek, log, BeginUpgrade(t, current, next, mint))
  {
    hide UploadOk, ParkedOk, FetchOk;
  }

  lemma {:induction false} RewrapsKeep(vek: Option<nat>, log: seq<Blob>, t: Tab,
                                       current: string, next: string, secret: string)
    requires TabOk(vek, log, t)
    ensures TabOk(vek, log, BeginRewrap(t, current, next))
    ensures t.pendingRaw != Some(ZEROED) ==> TabOk(vek, log, BeginNewMaster(t, next))
    ensures TabOk(vek, log, BeginKit(t, secret))
    ensures TabOk(vek, log, KeysAnswered(t))
  {
    hide UploadOk, ParkedOk, FetchOk;
  }

  /** When one upgrade took a version, no other can be, or was, accepted. */
  lemma {:induction false} UpgradeOutrunsUpgrade(vek: Option<nat>, log: seq<Blob>, st: Store, f: Flow, other: Flow)
    requires Chain(log) && FlowOk(vek, log, st, f) && Upgraded(f) && FlowOk(vek, log, st, other)
    ensures other.Putting? && other.kind.Upgrade? ==> other.version <= |log|
  {
    hide MetaOk, RowOk, WrapsOk;
  }

  lemma {:induction false} ParkedOutlivesUpgrade(vek: Option<nat>, log: seq<Blob>, st: Store, st': Store,
                                                 f: Flow, parked: seq<Flow>)
    requires Chain(log) && FlowOk(vek, log, st, f) && Upgraded(f)
    requires ParkedOk(vek, log, st, true, parked) && st.era < st'.era
    ensures ParkedOk(vek, log, st', false, parked)
  {
    hide FlowOk, Chain;
    forall i | 0 <= i < |parked|
      ensures FlowOk(vek, log, st', parked[i])
    {
      UpgradeOutrunsUpgrade(vek, log, st, f, parked[i]);
      FlowOutlivesEra(vek, log, st, st', parked[i]);
    }
  }

  lemma {:induction false} FlowAnswerKeeps(vek: Option<nat>, log: seq<Blob>, t: Tab)
    requires Chain(log) && TabOk(vek, log, t)
    requires CompletesUnlock(t, TakeFlowAnswer) ==> t.upload.Quiet? && NoneUpgrading(t.parked)
    ensures TabOk(vek, log, FlowAnswered(t))
  {
    WithoutFlow(vek, log, t);
    if t.flow.Replied? && t.flow.reply.Accepted? {
      var done := t.(flow := NoFlow);
      if t.flow.kind.Upgrade? {
        UpgradedStoreFits(vek, log, t);
        var st := Rekeyed(t.store, t.flow.blob.key, t.flow.reply.version);
        ParkedOutlivesUpgrade(vek, log, t.store, st, t.flow, t.parked);
        NoFlowOk(vek, log, st);
        EffectsTouchOnlyRefs(done.(store := st));
        hide RunEffects, MetaOk, RowOk, StoreOk, UploadOk, FlowOk, ParkedOk, Rekeyed;
      } else {
        var st := Store(false, FRESH_DOC, Some(t.flow.blob.key), 1, Idle, t.store.era + 1);
        assert StoreOk(vek, log, st) by { hide UploadOk, MetaOk, RowOk, ParkedOk, FetchOk, CachedOk; }
        UnlockedKeeps(vek, log, done, FRESH_DOC, t.flow.blob.key, 1);
        hide Unlocked, StoreOk, TabOk;
      }
    } else {
      hide TabOk;
    }
  }

  /** After a completed upgrade the tab holds the accepted copy under the new key. */
  lemma {:induction false} UpgradedStoreFits(vek: Option<nat>, log: seq<Blob>, t: Tab)
    requires TabOk(vek, log, t) && t.flow.Replied? && t.flow.reply.Accepted? && t.flow.kind.Upgrade?
    ensures var st := Rekeyed(t.store, t.flow.blob.key, t.flow.reply.version);
            StoreOk(vek, log, st) && UploadOk(vek, log, st, t.upload)
            && st.era == t.store.era + 1 && st.isLocked == t.store.isLocked && !HoldsDerived(st)
  {
    hide MetaOk, RowOk, WrapsOk, ParkedOk, FetchOk, CachedOk;
  }

  // ---- Requests served by the server --------------------------------------------------

  lemma {:induction false} FlowOutlivesGrowth(vek: Option<nat>, log: seq<Blob>, vek': Option<nat>, log': seq<Blob>,
                                              st: Store, f: Flow)
    requires FlowOk(vek, log, st, f) && log <= log' && (vek.Some? ==> vek' == vek)
    ensures FlowOk(vek', log', st, f)
  {
  }

  lemma {:induction false} ParkedOutliveGrowth(vek: Option<nat>, log: seq<Blob>, vek': Option<nat>, log': seq<Blob>,
                                               st: Store, upgraded: bool, parked: seq<Flow>)
    requires ParkedOk(vek, log, st, upgraded, parked) && log <= log' && (vek.Some? ==> vek' == vek)
    ensures ParkedOk(vek', log', st, upgraded, parked)
  {
    hide FlowOk;
    forall i | 0 <= i < |parked|
      ensures FlowOk(vek', log', st, parked[i])
    {
      FlowOutlivesGrowth(vek, log, vek', log', st, parked[i]);
    }
  }

  lemma {:induction false} TabOutlivesGrowth(vek: Option<nat>, log: seq<Blob>, vek': Option<nat>, log': seq<Blob>,
                                             t: Tab)
    requires TabOk(vek, log, t)
    requires log <= log' && (vek.Some? ==> vek' == vek)
    ensures TabOk(vek', log', t)
  {
    FlowOutlivesGrowth(vek, log, vek', log', t.store, t.flow);
    ParkedOutliveGrowth(vek, log, vek', log', t.store, Upgraded(t.flow), t.parked);
    hide FlowOk, ParkedOk;
  }

  /** The newest stored snapshot is the last one accepted. */
  lemma {:induction false} ReadsFit(s: Server, log: seq<Blob>, row: Row)
    requires ServerOk(s, log) && RowOk(VekOf(s.row), log, row)
    ensures MetaOk(VekOf(s.row), log, Meta(row, Newest(s.snapshots)))
  {
    NextVersion(s, log);
  }

  lemma {:induction false} ReadKeeps(s: Server, log: seq<Blob>, t: Tab, a: Action)
    requires ServerOk(s, log) && TabOk(VekOf(s.row), log, t)
    ensures TabOk(VekOf(s.row), log, ReadFor(s, t, a))
  {
    var vek := VekOf(s.row);
    if t.upload.ReloadingNewest? { ReadsFit(s, log, t.upload.row); }
    if t.flow.GettingNewest? { ReadsFit(s, log, t.flow.row); }
    if t.fetch.FetchingNewest? { ReadsFit(s, log, t.fetch.row); }
    hide MetaOk, SentOk, Newest, Chain;
  }

  /** An accepted upload without wraps extends the chain under the current key. */
  lemma {:induction false} UploadExtends(s: Server, log: seq<Blob>, blob: Blob)
    requires ServerOk(s, log) && log != []
    requires log[|log| - 1].doc.trail <= blob.doc.trail && !blob.key.Recovery?
    requires blob.key.Derived? ==> log[|log| - 1].key == blob.key
    requires blob.key.Vek? ==> VekOf(s.row) == Some(blob.key.raw)
    ensures var (after, reply) := Put(s, Request(|log| + 1, blob, None, None));
            && reply == Accepted(|log| + 1) && VekOf(after.row) == VekOf(s.row)
            && ServerOk(after, log + [blob])
  {
    PutIsCompareAndSet(s, log, Request(|log| + 1, blob, None, None));
    ChainGrows(log, blob);
  }

  /** An accepted upload with a kek_wrap is the first of its kind. */
  lemma {:induction false} InitExtends(s: Server, log: seq<Blob>, blob: Blob, kek: Wrap, recovery: Option<Wrap>)
    requires ServerOk(s, log) && blob.key.Vek? && WrapsOk(Some(kek), recovery, Some(blob.key.raw))
    requires log != [] ==> log[|log| - 1].doc.trail <= blob.doc.trail && log[|log| - 1].key.Derived?
    ensures VekOf(s.row).None?
    ensures var (after, reply) := Put(s, Request(|log| + 1, blob, Some(kek), recovery));
            && reply == Accepted(|log| + 1) && VekOf(after.row) == Some(blob.key.raw)
            && ServerOk(after, log + [blob])
  {
    PutIsCompareAndSet(s, log, Request(|log| + 1, blob, Some(kek), recovery));
    ChainGrows(log, blob);
  }

  ghost predicate OutcomeOk(log: seq<Blob>, vek: Option<nat>, o: Outcome) {
    var log' := if o.accepted.None? then log else log + [o.accepted.value];
    && ServerOk(o.server, log')
    && (vek.Some? ==> VekOf(o.server.row) == vek)
    && TabOk(VekOf(o.server.row), log', o.tab)
  }

  lemma {:induction false} SentFits(vek: Option<nat>, log: seq<Blob>, t: Tab)
    requires TabOk(vek, log, t) && t.upload.Sent?
    ensures 2 <= t.upload.version <= |log| + 1
    ensures var blob := t.upload.blob;
            t.upload.version == |log| + 1 ==>
              && log[|log| - 1].doc.trail <= blob.doc.trail && !blob.key.Recovery?
              && (blob.key.Derived? ==> log[|log| - 1].key == blob.key)
              && (blob.key.Vek? ==> vek == Some(blob.key.raw))
  {
    hide FlowOk, FetchOk, MetaOk, StoreOk;
  }

  lemma {:induction false} UploadReplyFits(vek: Option<nat>, log: seq<Blob>, t: Tab, reply: PutReply)
    requires TabOk(vek, log, t) && t.upload.Sent?
    requires reply.Accepted? ==> reply.version == t.upload.version <= |log| && log[reply.version - 1] == t.upload.blob
    requires reply.Conflict? ==> t.upload.version <= |log|
    ensures TabOk(vek, log, t.(upload := Answered(t.upload.version, t.upload.blob, reply)))
  {
    hide FlowOk, FetchOk, MetaOk, StoreOk, SentOk;
  }

  lemma {:induction false} ServeUploadKeeps(s: Server, log: seq<Blob>, t: Tab, d: nat)
    requires ServerOk(s, log) && TabOk(VekOf(s.row), log, t)
    ensures OutcomeOk(log, VekOf(s.row), Act(s, t, d, ServeUpload))
  {
    hide TabOk, ServerOk, Put, Request;
    if t.upload.Sent? {
      var vek := VekOf(s.row);
      var v, blob := t.upload.version, t.upload.blob;
      SentFits(vek, log, t);
      UploadAnswerIs(s, log, v, blob);
      if v == |log| + 1 {
        UploadExtends(s, log, blob);
        TabOutlivesGrowth(vek, log, vek, log + [blob], t);
        UploadReplyFits(vek, log + [blob], t, Accepted(v));
      } else {
        UploadReplyFits(vek, log, t, Conflict);
      }
    }
  }

  lemma {:induction false} UploadAnswerIs(s: Server, log: seq<Blob>, v: int, blob: Blob)
    requires ServerOk(s, log)
    ensures Put(s, Request(v, blob, None, None)).1 == if v == |log| + 1 then Accepted(v) else Conflict
    ensures v != |log| + 1 ==> Put(s, Request(v, blob, None, None)).0 == s
  {
    NextVersion(s, log);
  }

  lemma {:induction false} PuttingFits(vek: Option<nat>, log: seq<Blob>, t: Tab)
    requires TabOk(vek, log, t) && t.flow.Putting?
    ensures var blob := t.flow.blob;
            && 1 <= t.flow.version <= |log| + 1 && blob.key.Vek?
            && WrapsOk(Some(t.flow.kek), t.flow.recovery, Some(blob.key.raw))
            && (t.flow.version == |log| + 1 && log != [] ==>
                  log[|log| - 1].doc.trail <= blob.doc.trail && log[|log| - 1].key.Derived?)
  {
    hide UploadOk, FetchOk, MetaOk, StoreOk;
  }

  lemma {:induction false} FlowReplyFits(vek: Option<nat>, log: seq<Blob>, t: Tab, reply: PutReply)
    requires TabOk(vek, log, t) && t.flow.Putting?
    requires reply.Accepted? ==>
               && reply.version == t.flow.version == |log| && log[|log| - 1] == t.flow.blob
               && t.flow.blob.key.Vek? && vek == Some(t.flow.blob.key.raw)
               && (t.flow.kind.Upgrade? ==> UpgradeLive(t.store, t.flow.version, t.flow.blob) && NoneUpgraded(t.parked))
    ensures TabOk(vek, log, t.(flow := Replied(t.flow.kind, t.flow.version, t.flow.blob, reply)))
  {
    hide UploadOk, FetchOk, MetaOk, StoreOk, WrapsOk, CachedOk;
  }

  lemma {:induction false} UpgradeStillFits(vek: Option<nat>, log: seq<Blob>, t: Tab)
    requires TabOk(vek, log, t) && t.flow.Putting? && t.flow.version == |log| + 1
    ensures t.flow.kind.Upgrade? ==> UpgradeLive(t.store, t.flow.version, t.flow.blob)
  {
    hide UploadOk, FetchOk, MetaOk, StoreOk, WrapsOk, ParkedOk, CachedOk;
  }

  predicate NoneUpgraded(parked: seq<Flow>) {
    forall i :: 0 <= i < |parked| ==> !Upgraded(parked[i])
  }

  /** An upgrade that can still be accepted is the first of its tab. */
  lemma {:induction false} FirstUpgrade(vek: Option<nat>, log: seq<Blob>, t: Tab)
    requires Chain(log) && TabOk(vek, log, t) && t.flow.Putting? && t.flow.version == |log| + 1 && t.flow.kind.Upgrade?
    ensures NoneUpgraded(t.parked)
  {
    hide FlowOk, UploadOk, FetchOk, StoreOk, CachedOk, Chain;
    forall i | 0 <= i < |t.parked|
      ensures !Upgraded(t.parked[i])
    {
      if Upgraded(t.parked[i]) { UpgradeOutrunsUpgrade(vek, log, t.store, t.parked[i], t.flow); }
    }
  }

  lemma ChainOf(s: Server, log: seq<Blob>)
    requires ServerOk(s, log)
    ensures Chain(log)
  {
  }

  lemma {:induction false} ServeFlowPutKeeps(s: Server, log: seq<Blob>, t: Tab, d: nat)
    requires ServerOk(s, log) && TabOk(VekOf(s.row), log, t)
    ensures OutcomeOk(log, VekOf(s.row), Act(s, t, d, ServeFlowPut))
  {
    hide TabOk, ServerOk, Put, Request, WrapsOk, Chain, NoneUpgraded, UpgradeLive;
    if t.flow.Putting? {
      var vek := VekOf(s.row);
      var f := t.flow;
      PuttingFits(vek, log, t);
      InitAnswerIs(s, log, f.version, f.blob, f.kek, f.recovery);
      if f.version == |log| + 1 {
        InitExtends(s, log, f.blob, f.kek, f.recovery);
        UpgradeStillFits(vek, log, t);
        ChainOf(s, log);
        if f.kind.Upgrade? { FirstUpgrade(vek, log, t); }
        TabOutlivesGrowth(vek, log, Some(f.blob.key.raw), log + [f.blob], t);
        FlowReplyFits(Some(f.blob.key.raw), log + [f.blob], t, Accepted(f.version));
      } else {
        FlowReplyFits(vek, log, t, Conflict);
      }
    }
  }

  lemma {:induction false} InitAnswerIs(s: Server, log: seq<Blob>, v: int, blob: Blob, kek: Wrap,
                                        recovery: Option<Wrap>)
    requires ServerOk(s, log)
    ensures Put(s, Request(v, blob, Some(kek), recovery)).1 == if v == |log| + 1 then Accepted(v) else Conflict
    ensures v != |log| + 1 ==> Put(s, Request(v, blob, Some(kek), recovery)).0 == s
  {
    NextVersion(s, log);
  }

  lemma {:induction false} ServeKeysKeeps(s: Server, log: seq<Blob>, t: Tab, d: nat)
    requires ServerOk(s, log) && TabOk(VekOf(s.row), log, t)
    ensures OutcomeOk(log, VekOf(s.row), Act(s, t, d, ServeKeys))
  {
    hide UploadOk, FetchOk, MetaOk, StoreOk, Chain;
  }

  lemma {:induction false} ActKeeps(s: Server, log: seq<Blob>, t: Tab, d: nat, a: Action)
    requires ServerOk(s, log) && TabOk(VekOf(s.row), log, t) && Careful(t, a)
    ensures OutcomeOk(log, VekOf(s.row), Act(s, t, d, a))
  {
    var vek := VekOf(s.row);
    ServeUploadKeeps(s, log, t, d);
    ServeFlowPutKeeps(s, log, t, d);
    ServeKeysKeeps(s, log, t, d);
    if !(a.ServeUpload? || a.ServeFlowPut? || a.ServeKeys?) {
      LocalKeeps(s, log, t, d, a);
      ReadKeeps(s, log, Local(t, d, a), a);
    }
    hide TabOk, ServerOk, Local, ReadFor, Put, PutKeys;
  }

  lemma {:induction false} FetchKeeps(vek: Option<nat>, log: seq<Blob>, t: Tab)
    requires TabOk(vek, log, t)
    ensures TabOk(vek, log, t.(fetch := Fetching(t.store.era))) && TabOk(vek, log, t.(fetch := NoFetch))
  {
    hide StoreOk, UploadOk, FlowOk, MetaOk;
  }

  lemma {:induction false} LocalKeeps(s: Server, log: seq<Blob>, t: Tab, d: nat, a: Action)
    requires ServerOk(s, log) && TabOk(VekOf(s.row), log, t) && Careful(t, a)
    ensures TabOk(VekOf(s.row), log, Local(t, d, a))
  {
    hide Edited, Locked, Retried, BeginUnlock, BeginRegister, BeginUpgrade, BeginRewrap, BeginNewMaster, BeginKit,
         Turned, UpgradeSent, TimerFired, UploadAnswered, ReloadArrived, ReloadDecrypted, UnlockFinished,
             FlowAnswered, KeysAnswered,
         UploadDropped, FlowDropped, Opens, TabOk, Chain;
    var vek := VekOf(s.row);
    match a {
      case EditContents(after) => UserKeeps(vek, log, t, d, after);
      case LockVault => UserKeeps(vek, log, t, d, EMPTY);
      case RetrySync => UserKeeps(vek, log, t, d, EMPTY);
      case StartUnlock(goal) => StartsKeep(vek, log, t, goal, "", "", "", 1);
      case StartRegister(m, k, mint) => StartsKeep(vek, log, t, MasterPassword(""), "", m, k, mint);
      case StartUpgrade(c, n, mint) => StartsKeep(vek, log, t, MasterPassword(""), c, n, "", mint);
      case SendUpgrade => UpgradeSendKeeps(vek, log, t);
      case TurnTo(i) => TurnKeeps(vek, log, t, i);
      case StartRewrap(c, n) => RewrapsKeep(vek, log, t, c, n, "");
      case StartNewMaster(n) => RewrapsKeep(vek, log, t, "", n, "");
      case StartKit(k) => RewrapsKeep(vek, log, t, "", "", k);
      case FireTimer => TimerKeeps(vek, log, t);
      case TakeUploadAnswer => AnswerKeeps(vek, log, t);
      case TakeReload => ArrivalKeeps(vek, log, t);
      case TakeDecryption => ReloadKeeps(vek, log, t);
      case TakeUnlock(mint) => UnlockKeeps(vek, log, t, mint);
      case TakeFlowAnswer => FlowAnswerKeeps(vek, log, t);
      case TakeKeysAnswer => RewrapsKeep(vek, log, t, "", "", "");
      case DropUpload => DropKeeps(vek, log, t);
      case DropFlow => FlowDropKeeps(vek, log, t);
      case AskMeta => FetchKeeps(vek, log, t);
      case DropMeta => FetchKeeps(vek, log, t);
      case _ =>
    }
  }

  lemma {:induction false} StepKeepsSafe(s: System, step: Step)
    requires Safe(s) && CarefulStep(s, step)
    ensures Safe(Do(s, step))
    ensures s.log <= Do(s, step).log
  {
    match step {
      case PruneScan(keep) =>
        NextVersion(s.server, s.log);
      case PruneDelete =>
        if s.pruning.Some? { StalePruneKeepsNewest(s.server, s.log, s.pruning.value); }
        hide TabOk;
      case OnTab(d, a) =>
        if d in s.tabs {
          ActKeeps(s.server, s.log, s.tabs[d], d, a);
          var s' := Do(s, step);
          forall e | e in s'.tabs && e != d
            ensures TabOk(VekOf(s'.server.row), s'.log, s'.tabs[e])
          {
            TabOutlivesGrowth(VekOf(s.server.row), s.log, VekOf(s'.server.row), s'.log, s.tabs[e]);
          }
        }
        hide TabOk, ServerOk, Act;
    }
  }

  lemma {:induction false} InitialIsSafe(s: System)
    requires Initial(s)
    ensures Safe(s)
  {
  }

  lemma {:induction false} RunKeepsSafe(s: System, steps: seq<Step>)
    requires Safe(s) && CarefulRun(s, steps)
    ensures Safe(Run(s, steps)) && s.log <= Run(s, steps).log
    decreases |steps|
  {
    if steps == [] {
    } else {
      StepKeepsSafe(s, steps[0]);
      RunKeepsSafe(Do(s, steps[0]), steps[1..]);
    }
  }
}
